/** eio_dent_sort: the radix pass, then the insertion pass. */
module DentSort {
  import opened Bits
  import opened Dirents
  import opened RadixSort
  import opened InsertionSort

  /** There is a bit to test; without one the sentinel itself would be taken for a bit address. */
  ghost predicate SomeBit(l: Layout, scoreBits: nat, inodeBits: nat) {
    exists p: nat :: Listed(l, scoreBits, inodeBits, p)
  }

  /**
   * The sorted result is a rearrangement ordered by (score, inode). `states` and `shifts` trace the
   * insertion pass from the sentinel swap to the result; above the fast limit no insertion shifts more
   * than 28 entries.
   */
  method Sort(l: Layout, dents: array<Dirent>, size: nat, scoreBits: nat, inodeBits: nat)
    returns (ghost shifts: seq<nat>, ghost states: seq<seq<Dirent>>)
    requires l.Valid() && size <= dents.Length && BitsCover(l, dents[..size], scoreBits, inodeBits)
    requires size > SORT_FAST ==> SomeBit(l, scoreBits, inodeBits)
    modifies dents
    ensures dents[size..] == old(dents[size..])
    ensures multiset(dents[..size]) == multiset(old(dents[..size]))
    ensures Sorted(dents[..size])
    ensures size > 1 ==> |states| == |shifts| == size && multiset(states[0]) == multiset(old(dents[..size]))
    ensures size > 1 ==> InsertionTrace(states, shifts, dents[..size])
    ensures size > SORT_FAST ==> forall k :: 0 <= k < size ==> shifts[k] <= 28
    ensures size > SORT_FAST ==> Sum(shifts) <= 28 * size
  {
    shifts, states := [], [];
    if size <= 1 {
      return;
    }
    ghost var was, s := dents[..], dents[..size];
    assert SmallScores(s);
    var cuts := RadixSort.RadixSort(l, dents, size, scoreBits, inodeBits);
    PermutedPrefix(was, dents[..], 0, size, size);
    SmallScoresPermuted(s, dents[..][..size], 0, size);
    assert dents[..][..size] == dents[..size];
    assert dents[size..] == dents[..][size..] == was[size..];
    ghost var r := dents[..size];
    shifts, states := InsertionSort.InsertionSort(dents, size, cuts);
    SwapKeepsAll(r, states[0]);
    PermutedTrans(s, r, dents[..size], 0, size);
    assert s[0..size] == s && dents[..size][0..size] == dents[..size];
    if size > SORT_FAST {
      LinearMoves(shifts, 28);
    }
  }

  lemma SwapKeepsAll(s: seq<Dirent>, t: seq<Dirent>)
    requires LeastSwapped(s, t)
    ensures multiset(t) == multiset(s)
  {
    var m: nat :| LeastAt(s, m, |s|) && t == Swapped(s, 0, m);
    SwapPermuted(s, 0, m, 0, |s|);
    assert s[0..|s|] == s && t[0..|t|] == t;
  }

  /** The two ways eio__scandir calls the sort meet its demands on the score mask. */
  lemma MasksCover(l: Layout, s: seq<Dirent>, scoreBits: nat, inodeBits: nat)
    requires forall k: nat :: Bit(inodeBits, k) ==> k < 8 * l.Width()
    requires forall i, k: nat :: 0 <= i < |s| && Bit(s[i].inode, k) ==> Bit(inodeBits, k)
    requires forall i :: 0 <= i < |s| ==> s[i].score <= 7
    requires scoreBits == 7 ||
      (scoreBits == 0 && forall i, j :: 0 <= i < |s| && 0 <= j < |s| ==> s[i].score == s[j].score)
    ensures BitsCover(l, s, scoreBits, inodeBits)
    ensures SomeBit(l, scoreBits, inodeBits) <==> scoreBits == 7 || inodeBits != 0
  {
    SomeBitIff(l, scoreBits, inodeBits);
    assert Pow2(3) == 8 && Bit(7, 0) && Bit(7, 1) && Bit(7, 2) by {
      assert Pow2(0) == 1 && Pow2(1) == 2 && Pow2(2) == 4;
      assert Bit(3, 0) && Bit(1, 0) && Bit(3, 1);
    }
    forall i, j, k: nat | 0 <= i < |s| && 0 <= j < |s| && Bit(s[i].score, k) != Bit(s[j].score, k)
      ensures ScoreBitListed(scoreBits, k)
    {
      if k >= 3 {
        Pow2Grows(3, k);
        SmallHasNoBit(s[i].score, k);
        SmallHasNoBit(s[j].score, k);
        assert false;
      }
    }
  }

  /** With the score masks of the scan there is a bit to test unless both masks are 0. */
  lemma SomeBitIff(l: Layout, scoreBits: nat, inodeBits: nat)
    requires scoreBits == 7 || scoreBits == 0
    requires forall k: nat :: Bit(inodeBits, k) ==> k < 8 * l.Width()
    ensures SomeBit(l, scoreBits, inodeBits) <==> scoreBits == 7 || inodeBits != 0
  {
    if scoreBits == 7 {
      assert Bit(7, 0) && Listed(l, scoreBits, inodeBits, 8 * l.Width());
    } else {
      forall k: nat
        ensures !Bit(0, k)
      {
        ZeroBit(k);
      }
      if inodeBits != 0 {
        var k := NonzeroHasBit(inodeBits);
        assert Listed(l, scoreBits, inodeBits, k);
      }
    }
  }

  lemma {:induction false} Pow2Grows(m: nat, n: nat)
    requires m <= n
    ensures Pow2(m) <= Pow2(n)
    decreases n
  {
    if m < n {
      Pow2Grows(m, n - 1);
    }
  }
}
