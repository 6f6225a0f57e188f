/** Directory entries, their sort order, and what "permuted inside a range" means. */
module Dirents {
  import opened Bits

  // struct eio_dirent: the name is an offset into the name buffer
  datatype Dirent = Dirent(nameofs: nat, namelen: nat, dtype: nat, score: nat, inode: nat)

  /** eio_dent_cmp: the sign of the result orders `a` and `b`. */
  function Cmp(a: Dirent, b: Dirent): int {
    if a.score - b.score != 0 then ToSignedChar(a.score - b.score)
    else if a.inode < b.inode then -1
    else if a.inode > b.inode then 1
    else 0
  }

  predicate Less(a: Dirent, b: Dirent) {
    a.score < b.score || (a.score == b.score && a.inode < b.inode)
  }

  predicate AtMost(a: Dirent, b: Dirent) {
    !Less(b, a)
  }

  predicate SameKey(a: Dirent, b: Dirent) {
    a.score == b.score && a.inode == b.inode
  }

  ghost predicate Sorted(s: seq<Dirent>) {
    forall i, j :: 0 <= i < j < |s| ==> AtMost(s[i], s[j])
  }

  /** `t` rearranges `s` inside [lo, hi) and agrees with it elsewhere. */
  ghost predicate Permuted<T>(s: seq<T>, t: seq<T>, lo: nat, hi: nat) {
    && |s| == |t|
    && lo <= hi <= |s|
    && s[..lo] == t[..lo]
    && s[hi..] == t[hi..]
    && multiset(s[lo..hi]) == multiset(t[lo..hi])
  }

  lemma PermutedRefl<T>(s: seq<T>, lo: nat, hi: nat)
    requires lo <= hi <= |s|
    ensures Permuted(s, s, lo, hi)
  {
  }

  lemma PermutedTrans<T>(s: seq<T>, t: seq<T>, u: seq<T>, lo: nat, hi: nat)
    requires Permuted(s, t, lo, hi) && Permuted(t, u, lo, hi)
    ensures Permuted(s, u, lo, hi)
  {
  }

  lemma PermutedWiden<T>(s: seq<T>, t: seq<T>, lo: nat, hi: nat, lo': nat, hi': nat)
    requires Permuted(s, t, lo, hi) && lo' <= lo && hi <= hi' <= |s|
    ensures Permuted(s, t, lo', hi')
  {
    assert s[..lo'] == s[..lo][..lo'] == t[..lo][..lo'] == t[..lo'];
    assert s[hi'..] == s[hi..][hi' - hi..] == t[hi..][hi' - hi..] == t[hi'..];
    assert s[lo'..hi'] == s[..lo][lo'..] + s[lo..hi] + s[hi..][..hi' - hi];
    assert t[lo'..hi'] == t[..lo][lo'..] + t[lo..hi] + t[hi..][..hi' - hi];
  }

  /** Every element of the rearranged range was somewhere in that range before. */
  lemma PermutedFrom<T>(s: seq<T>, t: seq<T>, lo: nat, hi: nat, i: nat) returns (j: nat)
    requires Permuted(s, t, lo, hi) && lo <= i < hi
    ensures lo <= j < hi && s[j] == t[i]
  {
    assert t[i] == t[lo..hi][i - lo];
    assert t[i] in multiset(s[lo..hi]);
    assert t[i] in s[lo..hi];
    var k :| 0 <= k < |s[lo..hi]| && s[lo..hi][k] == t[i];
    j := lo + k;
  }

  lemma PermutedOutside<T>(s: seq<T>, t: seq<T>, lo: nat, hi: nat, i: nat)
    requires Permuted(s, t, lo, hi) && i < |s| && !(lo <= i < hi)
    ensures s[i] == t[i]
  {
    if i < lo {
      assert s[i] == s[..lo][i] == t[..lo][i];
    } else {
      assert s[i] == s[hi..][i - hi] == t[hi..][i - hi];
    }
  }

  function Swapped<T>(s: seq<T>, i: nat, j: nat): seq<T>
    requires i < |s| && j < |s|
  {
    s[i := s[j]][j := s[i]]
  }

  lemma SwapPermuted<T>(s: seq<T>, i: nat, j: nat, lo: nat, hi: nat)
    requires lo <= i < hi <= |s| && lo <= j < hi
    ensures Permuted(s, Swapped(s, i, j), lo, hi)
  {
    var t := Swapped(s, i, j);
    var u := s[lo..hi];
    assert t[lo..hi] == u[i - lo := u[j - lo]][j - lo := u[i - lo]];
    assert s[..lo] == t[..lo] && s[hi..] == t[hi..];
  }

  /** Moving element `i` down to place `p` rearranges [p, i]. */
  lemma InsertPermuted<T>(s: seq<T>, t: seq<T>, p: nat, i: nat)
    requires p <= i < |s| && |t| == |s|
    requires t == s[..p] + [s[i]] + s[p..i] + s[i + 1..]
    ensures Permuted(s, t, p, i + 1)
  {
    assert s[..p] == t[..p];
    assert s[i + 1..] == t[i + 1..];
    assert s[p..i + 1] == s[p..i] + [s[i]];
    assert t[p..i + 1] == [s[i]] + s[p..i];
  }

  /** Everything left of `p` is strictly below everything from `p` on. */
  ghost predicate Cut(s: seq<Dirent>, p: nat) {
    forall i, j :: 0 <= i < p <= j < |s| ==> Less(s[i], s[j])
  }

  /** Rearranging on one side of a cut keeps it. */
  lemma CutPermuted(s: seq<Dirent>, t: seq<Dirent>, lo: nat, hi: nat, p: nat)
    requires Permuted(s, t, lo, hi) && Cut(s, p) && (p <= lo || hi <= p)
    ensures Cut(t, p)
  {
    forall i, j | 0 <= i < p <= j < |t|
      ensures Less(t[i], t[j])
    {
      var i', j' := i, j;
      if lo <= i < hi { i' := PermutedFrom(s, t, lo, hi, i); } else { PermutedOutside(s, t, lo, hi, i); }
      if lo <= j < hi { j' := PermutedFrom(s, t, lo, hi, j); } else { PermutedOutside(s, t, lo, hi, j); }
      assert Less(s[i'], s[j']);
    }
  }

  /** All entries of [lo, hi) have the same key. */
  ghost predicate AllSame(s: seq<Dirent>, lo: nat, hi: nat)
    requires lo <= hi <= |s|
  {
    forall i, j :: lo <= i < hi && lo <= j < hi ==> SameKey(s[i], s[j])
  }

  /** Rearranging on one side of such a range, or inside it, keeps it so. */
  lemma AllSamePermuted(s: seq<Dirent>, t: seq<Dirent>, lo: nat, hi: nat, a: nat, b: nat)
    requires Permuted(s, t, lo, hi) && a <= b <= |s| && AllSame(s, a, b)
    requires (a <= lo && hi <= b) || b <= lo || hi <= a
    ensures AllSame(t, a, b)
  {
    forall i | a <= i < b
      ensures SameKey(t[i], s[a])
    {
      if lo <= i < hi {
        var j := PermutedFrom(s, t, lo, hi, i);
        assert SameKey(s[j], s[a]);
      } else {
        PermutedOutside(s, t, lo, hi, i);
        assert SameKey(s[i], s[a]);
      }
    }
  }

  const SORT_CUTOFF: nat := 30
  const SORT_FAST: nat := 60

  /**
   * `cuts` splits a prefix of `s` into segments: keys strictly increase from one segment to the
   * next, and each segment is shorter than the cutoff or has one key only.
   */
  ghost predicate Segmented(s: seq<Dirent>, cuts: seq<nat>, upto: nat) {
    && |cuts| > 0 && cuts[0] == 0 && cuts[|cuts| - 1] == upto <= |s|
    && (forall k :: 0 <= k < |cuts| - 1 ==> cuts[k] < cuts[k + 1])
    && (forall k :: 0 <= k < |cuts| ==> cuts[k] <= |s| && Cut(s, cuts[k]))
    && (forall k :: 0 <= k < |cuts| - 1 ==> SmallOrSame(s, cuts[k], cuts[k + 1]))
  }

  ghost predicate SmallOrSame(s: seq<Dirent>, lo: nat, hi: nat) {
    lo <= hi <= |s| && (hi - lo < SORT_CUTOFF || AllSame(s, lo, hi))
  }

  lemma {:induction false} CutsIncrease(cuts: seq<nat>, i: nat, j: nat)
    requires forall k :: 0 <= k < |cuts| - 1 ==> cuts[k] < cuts[k + 1]
    requires i <= j < |cuts|
    ensures cuts[i] <= cuts[j] && (i < j ==> cuts[i] < cuts[j])
    decreases j - i
  {
    if i < j {
      CutsIncrease(cuts, i, j - 1);
    }
  }

  /** Rearranging within one gap between cuts, or right of them all, keeps the segments. */
  lemma SegmentedPermuted(s: seq<Dirent>, t: seq<Dirent>, lo: nat, hi: nat, cuts: seq<nat>, upto: nat)
    requires Segmented(s, cuts, upto) && Permuted(s, t, lo, hi)
    requires forall k :: 0 <= k < |cuts| ==> cuts[k] <= lo || hi <= cuts[k]
    ensures Segmented(t, cuts, upto)
  {
    forall k | 0 <= k < |cuts|
      ensures Cut(t, cuts[k])
    {
      CutPermuted(s, t, lo, hi, cuts[k]);
    }
    forall k | 0 <= k < |cuts| - 1
      ensures SmallOrSame(t, cuts[k], cuts[k + 1])
    {
      if AllSame(s, cuts[k], cuts[k + 1]) {
        if lo < hi {
          AllSamePermuted(s, t, lo, hi, cuts[k], cuts[k + 1]);
        } else {
          assert s == s[..lo] + s[lo..] == t;
        }
      }
    }
  }

  /** One more finished segment. */
  lemma SegmentedExtend(s: seq<Dirent>, cuts: seq<nat>, upto: nat, end: nat) returns (cuts': seq<nat>)
    requires Segmented(s, cuts, upto) && SmallOrSame(s, upto, end) && Cut(s, end)
    ensures Segmented(s, cuts', end)
  {
    cuts' := if upto < end then cuts + [end] else cuts;
  }

  /** The segment that holds index `i`. */
  lemma {:induction false} FindSegment(cuts: seq<nat>, i: nat, m: nat) returns (k: nat)
    requires 0 < m < |cuts| && cuts[0] <= i < cuts[m]
    ensures k < m && cuts[k] <= i < cuts[k + 1]
    decreases m
  {
    if cuts[m - 1] <= i {
      k := m - 1;
    } else {
      k := FindSegment(cuts, i, m - 1);
    }
  }

  /** The comparison is exact as long as score differences fit a signed char. */
  lemma CmpSign(a: Dirent, b: Dirent)
    requires a.score < 128 && b.score < 128
    ensures Cmp(a, b) < 0 <==> Less(a, b)
    ensures Cmp(a, b) > 0 <==> Less(b, a)
    ensures Cmp(a, b) == 0 <==> SameKey(a, b)
  {
  }

  method Swap<T>(a: array<T>, i: nat, j: nat)
    requires i < a.Length && j < a.Length
    modifies a
    ensures a[..] == Swapped(old(a[..]), i, j)
  {
    var tmp := a[i];
    a[i] := a[j];
    a[j] := tmp;
  }
}
