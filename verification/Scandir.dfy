/**
 * eio__scandir: reading a directory into a buffer of NUL-terminated names and an array of dirents,
 * and readdir_cb, which walks the name buffer.
 */
module Scandir {
  import opened Bits
  import opened Dirents
  import opened RadixSort
  import opened DentSort
  import opened DirListing

  // ---------------------------------------------------------------- the inode mask

  ghost function InodeMask(es: seq<DirEntry>): nat {
    if es == [] then 0 else Or(InodeMask(es[..|es| - 1]), es[|es| - 1].inode)
  }

  /** The mask has exactly the bits of all inodes. */
  lemma {:induction false} InodeMaskBits(es: seq<DirEntry>, k: nat)
    ensures Bit(InodeMask(es), k) <==> exists j :: 0 <= j < |es| && Bit(es[j].inode, k)
  {
    if es == [] {
      ZeroBit(k);
    } else {
      var front, last := es[..|es| - 1], es[|es| - 1];
      InodeMaskBits(front, k);
      OrBit(InodeMask(front), last.inode, k);
      forall j | 0 <= j < |es| && Bit(es[j].inode, k)
        ensures Bit(InodeMask(es), k)
      {
        assert j < |front| ==> front[j] == es[j];
      }
      if Bit(InodeMask(front), k) {
        var j :| 0 <= j < |front| && Bit(front[j].inode, k);
        assert es[j] == front[j];
      }
    }
  }

  ghost predicate InodesFit(l: Layout, es: seq<DirEntry>) {
    forall j, k: nat :: 0 <= j < |es| && Bit(es[j].inode, k) ==> k < 8 * l.Width()
  }

  ghost predicate SomeInode(es: seq<DirEntry>) {
    exists j :: 0 <= j < |es| && es[j].inode != 0
  }

  /** The scan discharges what the sort expects of the mask and of the scores. */
  lemma ScanCovers(l: Layout, es: seq<DirEntry>, dirsFirst: bool, ds: seq<Dirent>, scoreBits: nat)
    requires InodesFit(l, es)
    requires forall i :: 0 <= i < |ds| ==> ds[i] in DirentsOf(es, dirsFirst)
    requires scoreBits == 7 ||
      (scoreBits == 0 && forall i, j :: 0 <= i < |ds| && 0 <= j < |ds| ==> ds[i].score == ds[j].score)
    ensures BitsCover(l, ds, scoreBits, InodeMask(es))
    ensures scoreBits == 7 || SomeInode(es) ==> SomeBit(l, scoreBits, InodeMask(es))
  {
    var mask := InodeMask(es);
    forall k: nat | Bit(mask, k)
      ensures k < 8 * l.Width()
    {
      InodeMaskBits(es, k);
    }
    forall i | 0 <= i < |ds|
      ensures ds[i].score <= 7 && exists e :: e in es && ds[i].inode == e.inode
    {
      var all := DirentsOf(es, dirsFirst);
      var j :| 0 <= j < |all| && all[j] == ds[i];
      DirentAt(es, dirsFirst, j);
      assert es[j] in es;
    }
    forall i, k: nat | 0 <= i < |ds| && Bit(ds[i].inode, k)
      ensures Bit(mask, k)
    {
      InodeMaskBits(es, k);
      var e :| e in es && ds[i].inode == e.inode;
      var j :| 0 <= j < |es| && es[j] == e;
    }
    MasksCover(l, ds, scoreBits, mask);
    if SomeInode(es) {
      var j :| 0 <= j < |es| && es[j].inode != 0;
      var k := NonzeroHasBit(es[j].inode);
      InodeMaskBits(es, k);
      if mask == 0 {
        ZeroBit(k);
      }
    }
  }

  // ---------------------------------------------------------------- counting directories

  ghost function DirCount(es: seq<DirEntry>): nat {
    if es == [] then 0 else DirCount(es[..|es| - 1]) + (if es[|es| - 1].dtype == DT_DIR then 1 else 0)
  }

  ghost function NumDirs(ds: seq<Dirent>): nat {
    if ds == [] then 0 else NumDirs(ds[..|ds| - 1]) + (if ds[|ds| - 1].dtype == DT_DIR then 1 else 0)
  }

  lemma {:induction false} NumDirsOf(es: seq<DirEntry>, dirsFirst: bool)
    ensures NumDirs(DirentsOf(es, dirsFirst)) == DirCount(es)
  {
    if es != [] {
      NumDirsOf(es[..|es| - 1], dirsFirst);
      assert DirentsOf(es, dirsFirst)[..|es| - 1] == DirentsOf(es[..|es| - 1], dirsFirst);
    }
  }

  lemma {:induction false} NumDirsConcat(s: seq<Dirent>, t: seq<Dirent>)
    ensures NumDirs(s + t) == NumDirs(s) + NumDirs(t)
    decreases |t|
  {
    if t == [] {
      assert s + t == s;
    } else {
      NumDirsConcat(s, t[..|t| - 1]);
      assert (s + t)[..|s + t| - 1] == s + t[..|t| - 1];
    }
  }

  lemma {:induction false} NumDirsPermuted(s: seq<Dirent>, t: seq<Dirent>)
    requires multiset(s) == multiset(t)
    ensures NumDirs(s) == NumDirs(t)
    decreases |s|
  {
    if s == [] {
      assert |multiset(t)| == 0;
    } else {
      hide NumDirs;
      var front, last := s[..|s| - 1], s[|s| - 1];
      var k := TakeOut(s, t);
      NumDirsPermuted(front, t[..k] + t[k + 1..]);
      NumDirsConcat(t[..k], t[k + 1..]);
      NumDirsConcat(t[..k] + [last], t[k + 1..]);
      NumDirsConcat(t[..k], [last]);
      NumDirsConcat(front, [last]);
    }
  }

  lemma TakeOut<T>(s: seq<T>, t: seq<T>) returns (k: nat)
    requires s != [] && multiset(s) == multiset(t)
    ensures s == s[..|s| - 1] + [s[|s| - 1]]
    ensures k < |t| && t == t[..k] + [s[|s| - 1]] + t[k + 1..]
    ensures multiset(s[..|s| - 1]) == multiset(t[..k] + t[k + 1..])
  {
    var front, last := s[..|s| - 1], s[|s| - 1];
    assert s[|s| - 1] in multiset(s);
    k :| 0 <= k < |t| && t[k] == last;
    var before, behind := t[..k], t[k + 1..];
    assert s == front + [last];
    assert t == before + [last] + behind;
    CancelOne(front, last, before, behind);
  }

  lemma CancelOne<T>(front: seq<T>, x: T, before: seq<T>, behind: seq<T>)
    requires multiset(front + [x]) == multiset(before + [x] + behind)
    ensures multiset(front) == multiset(before + behind)
  {
    assert multiset(front) == multiset(front + [x]) - multiset{x};
    assert multiset(before + behind) == multiset(before + [x] + behind) - multiset{x};
  }

  lemma {:induction false} NumDirsSplit(s: seq<Dirent>, d: nat)
    requires d <= |s|
    requires forall i :: 0 <= i < d ==> s[i].dtype == DT_DIR
    requires forall i :: d <= i < |s| ==> s[i].dtype != DT_DIR
    ensures NumDirs(s) == d
    decreases |s|
  {
    if s != [] {
      NumDirsSplit(s[..|s| - 1], if d == |s| then d - 1 else d);
    }
  }

  // ---------------------------------------------------------------- the imperative code

  method Realloc<T(0)>(a: array<T>, n: nat) returns (b: array<T>)
    requires a.Length <= n
    ensures fresh(b) && b.Length == n && b[..a.Length] == a[..]
  {
    b := new T[n];
    forall i | 0 <= i < a.Length {
      b[i] := a[i];
    }
  }

  /** Double the name buffer until the next name fits, then copy it in with its NUL. */
  method AppendName(names: array<char>, namesoffs: nat, name: string) returns (names': array<char>, namesoffs': nat)
    requires 0 < names.Length && namesoffs <= names.Length
    modifies names
    ensures names' == names || fresh(names')
    ensures 0 < names'.Length && namesoffs' == namesoffs + |name| + 1 <= names'.Length
    ensures names'[..namesoffs'] == old(names[..namesoffs]) + name + [NUL]
  {
    names' := names;
    var len := |name| + 1;
    while namesoffs + len > names'.Length
      invariant names' == names || fresh(names')
      invariant 0 < names'.Length && namesoffs <= names'.Length
      invariant names'[..namesoffs] == old(names[..namesoffs])
      decreases namesoffs + len - names'.Length
    {
      var bigger := Realloc(names', 2 * names'.Length);
      assert bigger[..namesoffs] == bigger[..names'.Length][..namesoffs];
      names' := bigger;
    }
    CopyName(names', namesoffs, name);
    namesoffs' := namesoffs + len;
  }

  // memcpy of the name and its NUL
  method CopyName(names: array<char>, namesoffs: nat, name: string)
    requires namesoffs + |name| + 1 <= names.Length
    modifies names
    ensures names[..namesoffs + |name| + 1] == old(names[..namesoffs]) + name + [NUL]
  {
    ghost var before := names[..namesoffs];
    for k := 0 to |name| + 1
      invariant names[..namesoffs + k] == before + (name + [NUL])[..k]
    {
      names[namesoffs + k] := CharAt(name, k);
      assert names[..namesoffs + k + 1] == names[..namesoffs + k] + [names[namesoffs + k]];
    }
  }

  method AppendDirent(dents: array<Dirent>, dentoffs: nat, ent: Dirent) returns (dents': array<Dirent>)
    requires 0 < dents.Length && dentoffs <= dents.Length
    modifies dents
    ensures dents' == dents || fresh(dents')
    ensures dentoffs < dents'.Length
    ensures dents'[..dentoffs + 1] == old(dents[..dentoffs]) + [ent]
  {
    dents' := dents;
    if dentoffs == dents.Length {
      dents' := Realloc(dents, 2 * dents.Length);
      assert dents'[..dentoffs] == dents[..dentoffs];
    }
    dents'[dentoffs] := ent;
  }

  /** Directories before `dir`, other entries from `oth` to `n`. */
  ghost predicate Parted(s: seq<Dirent>, dir: nat, oth: nat, n: nat) {
    && dir <= oth <= n <= |s|
    && (forall i :: 0 <= i < dir ==> s[i].dtype == DT_DIR)
    && (forall i :: oth <= i < n ==> s[i].dtype != DT_DIR)
  }

  lemma PartedStart(s: seq<Dirent>, n: nat)
    requires n <= |s|
    ensures Parted(s, 0, n, n)
  {
  }

  /** Each turn of the loop takes one more entry, or exchanges two. */
  lemma PartedNext(s: seq<Dirent>, dir: nat, oth: nat, n: nat)
    requires Parted(s, dir, oth, n) && dir < oth
    ensures s[dir].dtype == DT_DIR ==> Parted(s, dir + 1, oth, n)
    ensures s[oth - 1].dtype != DT_DIR ==> Parted(s, dir, oth - 1, n)
    ensures s[dir].dtype != DT_DIR && s[oth - 1].dtype == DT_DIR ==>
      dir + 1 <= oth - 1 && Parted(Swapped(s, dir, oth - 1), dir + 1, oth - 1, n)
  {
  }

  lemma PartedMeans(s: seq<Dirent>, dir: nat, n: nat)
    requires Parted(s, dir, dir, n)
    ensures dir <= n <= |s|
    ensures forall i :: 0 <= i < dir ==> s[i].dtype == DT_DIR
    ensures forall i :: dir <= i < n ==> s[i].dtype != DT_DIR
  {
  }

  /** Directories to the front, everything else to the back, walking from both sides. */
  method PartitionDirs(dents: array<Dirent>, n: nat) returns (dir: nat)
    requires n <= dents.Length
    modifies dents
    ensures dir <= n
    ensures multiset(dents[..n]) == multiset(old(dents[..n]))
    ensures forall i :: 0 <= i < dir ==> dents[i].dtype == DT_DIR
    ensures forall i :: dir <= i < n ==> dents[i].dtype != DT_DIR
  {
    hide Permuted, Parted, Swapped;
    var oth := n;
    dir := 0;
    ghost var was, s := dents[..], dents[..];
    PermutedRefl(was, 0, n);
    PartedStart(was, n);
    while oth > dir
      invariant dir <= oth <= n && dents[..] == s
      invariant Permuted(was, s, 0, n) && Parted(s, dir, oth, n)
    {
      PartedNext(s, dir, oth, n);
      assert s[dir] == dents[dir] && s[oth - 1] == dents[oth - 1];
      if dents[dir].dtype == DT_DIR {
        dir := dir + 1;
      } else {
        oth := oth - 1;
        if dents[oth].dtype == DT_DIR {
          SwapPermuted(s, dir, oth, 0, n);
          Swap(dents, dir, oth);
          PermutedTrans(was, s, Swapped(s, dir, oth), 0, n);
          s := Swapped(s, dir, oth);
          dir := dir + 1;
        }
      }
    }
    PartedMeans(s, dir, n);
    assert s[..n] == dents[..n] && was[..n] == old(dents[..n]);
    PermutedFront(was, s, n);
  }

  lemma PermutedFront<T>(s: seq<T>, t: seq<T>, n: nat)
    requires Permuted(s, t, 0, n)
    ensures |t| == |s| && multiset(t[..n]) == multiset(s[..n])
  {
    assert s[0..n] == s[..n] && t[0..n] == t[..n];
  }

  // strlen, for a buffer that holds a NUL at or after `off`
  method Strlen(buf: array<char>, off: nat) returns (len: nat)
    requires exists k :: off <= k < buf.Length && buf[k] == NUL
    ensures off + len < buf.Length && buf[off + len] == NUL && NUL !in buf[off..off + len]
  {
    len := 0;
    ghost var end :| off <= end < buf.Length && buf[end] == NUL;
    while buf[off + len] != NUL
      invariant off + len <= end && NUL !in buf[off..off + len]
      decreases end - off - len
    {
      len := len + 1;
    }
  }

  lemma StopsAtNul(buf: string, pos: nat, name: string, len: nat)
    requires pos + |name| < |buf| && buf[pos..pos + |name|] == name && buf[pos + |name|] == NUL && NUL !in name
    requires pos + len < |buf| && buf[pos + len] == NUL && NUL !in buf[pos..pos + len]
    ensures len == |name|
  {
    assert forall k :: 0 <= k < |name| ==> buf[pos + k] == name[k];
    var part := buf[pos..pos + len];
    assert forall k :: 0 <= k < |part| ==> part[k] == buf[pos + k];
  }

  /** readdir_cb in demo.c: it prints exactly the names and never reads past the buffer. */
  method ReaddirCb(buf: array<char>, result: int, ghost es: seq<DirEntry>) returns (lines: seq<string>)
    requires result >= 0 ==> result == |es| && EncodedAt(buf[..], 0, es)
    ensures result < 0 ==> lines == []
    ensures result >= 0 ==> lines == NamesOf(es)
  {
    hide EncodedAt, Encode, NoNul, NamesOf;
    lines := [];
    if result < 0 {
      return;
    }
    var left, pos: nat := result, 0;
    ghost var i, b := 0, buf[..];
    assert es[0..] == es;
    NamesFrom(es, 0);
    while left != 0
      invariant i + left == |es|
      invariant lines + NamesOf(es[i..]) == NamesOf(es)
      invariant EncodedAt(b, pos, es[i..])
    {
      left := left - 1;
      FirstName(b, pos, es[i..]);
      NamesFrom(es, i);
      assert es[i..][1..] == es[i + 1..] && es[i..][0] == es[i];
      assert buf[pos + |es[i].name|] == NUL;
      var len := Strlen(buf, pos);
      assert buf[pos..pos + len] == b[pos..pos + len];
      StopsAtNul(b, pos, es[i].name, len);
      lines := lines + [buf[pos..pos + len]];
      pos := pos + len + 1;
      i := i + 1;
    }
    NoNames(es[i..]);
  }

  // ---------------------------------------------------------------- ordering the dirents

  /** The final order each flag mode promises. */
  ghost predicate Ordered(ds: seq<Dirent>, f: Flags) {
    if f.statOrder || (f.dirsFirst && f.foundUnknown) then Sorted(ds)
    else f.dirsFirst ==> exists d: nat :: DirsThenRest(ds, d)
  }

  ghost predicate DirsThenRest(ds: seq<Dirent>, d: nat) {
    && d <= |ds|
    && (forall i :: 0 <= i < d ==> ds[i].dtype == DT_DIR)
    && (forall i :: d <= i < |ds| ==> ds[i].dtype != DT_DIR)
    && (forall i, j :: 0 <= i < j < d ==> ds[i].inode <= ds[j].inode)
  }

  /** The sort is only run on more than 60 entries when there is some bit to test. */
  ghost predicate SortDefined(es: seq<DirEntry>, f: Flags) {
    if f.statOrder then |es| > SORT_FAST ==> f.dirsFirst || SomeInode(es)
    else f.dirsFirst && !f.foundUnknown && DirCount(es) > SORT_FAST ==> SomeInode(es)
  }

  lemma MembersOf(ds: seq<Dirent>, all: seq<Dirent>, n: nat)
    requires multiset(ds) == multiset(all) && n <= |ds|
    ensures forall i :: 0 <= i < n ==> ds[..n][i] in all
  {
    forall i | 0 <= i < n
      ensures ds[..n][i] in all
    {
      assert ds[i] in multiset(ds);
    }
  }

  lemma ScoreOfDirent(es: seq<DirEntry>, dirsFirst: bool, d: Dirent)
    requires d in DirentsOf(es, dirsFirst)
    ensures !dirsFirst ==> d.score == 7
    ensures dirsFirst && d.dtype == DT_DIR ==> d.score == 0
  {
    var all := DirentsOf(es, dirsFirst);
    var k :| 0 <= k < |all| && all[k] == d;
    DirentAt(es, dirsFirst, k);
  }

  /** Sorting part of an array keeps the multiset of a longer part. */
  lemma SortedPart(s: seq<Dirent>, t: seq<Dirent>, m: nat, n: nat)
    requires |s| == |t| && m <= n <= |s| && s[m..] == t[m..] && multiset(s[..m]) == multiset(t[..m])
    ensures multiset(s[..n]) == multiset(t[..n])
  {
    assert s[..n] == s[..m] + s[m..][..n - m];
    assert t[..n] == t[..m] + t[m..][..n - m];
  }

  /** The call of eio_dent_sort on the whole array. */
  method SortAll(l: Layout, dents: array<Dirent>, n: nat, scoreBits: nat, inodeBits: nat, ghost es: seq<DirEntry>,
                 ghost dirsFirst: bool)
    requires l.Valid() && n <= dents.Length && InodesFit(l, es)
    requires dents[..n] == DirentsOf(es, dirsFirst) && inodeBits == InodeMask(es)
    requires scoreBits == 7 || (scoreBits == 0 && !dirsFirst)
    requires n > SORT_FAST ==> scoreBits == 7 || SomeInode(es)
    modifies dents
    ensures multiset(dents[..n]) == multiset(DirentsOf(es, dirsFirst))
    ensures Sorted(dents[..n])
  {
    ghost var all := dents[..n];
    forall i | 0 <= i < |all|
      ensures !dirsFirst ==> all[i].score == 7
    {
      ScoreOfDirent(es, dirsFirst, all[i]);
    }
    ScanCovers(l, es, dirsFirst, all, scoreBits);
    var _, _ := DentSort.Sort(l, dents, n, scoreBits, inodeBits);
  }

  /** After the partition the directories, all of score 0, are ready to be sorted by inode. */
  lemma PartitionedDirs(l: Layout, es: seq<DirEntry>, ds: seq<Dirent>, dir: nat)
    requires multiset(ds) == multiset(DirentsOf(es, true)) && InodesFit(l, es) && dir <= |ds|
    requires forall i :: 0 <= i < dir ==> ds[i].dtype == DT_DIR
    requires forall i :: dir <= i < |ds| ==> ds[i].dtype != DT_DIR
    ensures dir == DirCount(es)
    ensures forall i :: 0 <= i < dir ==> ds[i].score == 0
    ensures BitsCover(l, ds[..dir], 0, InodeMask(es))
    ensures SomeInode(es) ==> SomeBit(l, 0, InodeMask(es))
  {
    hide BitsCover, InodesFit, SomeBit, SomeInode, NumDirs, DirCount, DirentsOf, InodeMask;
    NumDirsOf(es, true);
    NumDirsPermuted(ds, DirentsOf(es, true));
    NumDirsSplit(ds, dir);
    MembersOf(ds, DirentsOf(es, true), dir);
    forall i | 0 <= i < dir
      ensures ds[i].score == 0
    {
      assert ds[..dir][i] == ds[i];
      ScoreOfDirent(es, true, ds[i]);
    }
    ScanCovers(l, es, true, ds[..dir], 0);
  }

  /** All types known: directories to the front, and only they get sorted. */
  method SortDirsOnly(l: Layout, dents: array<Dirent>, n: nat, inodeBits: nat, ghost es: seq<DirEntry>)
    returns (dir: nat)
    requires l.Valid() && n <= dents.Length && InodesFit(l, es)
    requires dents[..n] == DirentsOf(es, true) && inodeBits == InodeMask(es)
    requires DirCount(es) > SORT_FAST ==> SomeInode(es)
    modifies dents
    ensures multiset(dents[..n]) == multiset(DirentsOf(es, true))
    ensures DirsThenRest(dents[..n], dir) && dir == DirCount(es)
  {
    hide BitsCover, InodesFit, SomeBit, SomeInode, DirsThenRest, DirCount, DirentsOf, InodeMask, Sorted;
    dir := PartitionDirs(dents, n);
    ghost var t := dents[..];
    assert t[..n] == dents[..n];
    PartitionedDirs(l, es, t[..n], dir);
    FrontOfFront(t, dir, n);
    assert t[..dir] == dents[..dir];
    SortFront(l, dents, dir, inodeBits);
    ghost var u := dents[..];
    SortedPart(t, u, dir, n);
    DirsSorted(t, u, dir, n);
    assert u[..n] == dents[..n];
  }

  lemma FrontOfFront<T>(s: seq<T>, m: nat, n: nat)
    requires m <= n <= |s|
    ensures s[..n][..m] == s[..m]
    ensures forall i :: 0 <= i < n ==> s[..n][i] == s[i]
  {
  }

  /** Sorting the first `dir` entries of the array. */
  method SortFront(l: Layout, dents: array<Dirent>, dir: nat, inodeBits: nat)
    requires l.Valid() && dir <= dents.Length && BitsCover(l, dents[..dir], 0, inodeBits)
    requires dir > SORT_FAST ==> SomeBit(l, 0, inodeBits)
    modifies dents
    ensures dents[..][dir..] == old(dents[..])[dir..]
    ensures multiset(dents[..][..dir]) == multiset(old(dents[..])[..dir]) && Sorted(dents[..][..dir])
  {
    hide BitsCover, SomeBit, Sorted;
    ghost var t := dents[..];
    assert t[..dir] == dents[..dir] && t[dir..] == dents[dir..];
    var _, _ := DentSort.Sort(l, dents, dir, 0, inodeBits);
    assert dents[..][..dir] == dents[..dir] && dents[..][dir..] == dents[dir..];
  }

  lemma DirsSorted(s: seq<Dirent>, t: seq<Dirent>, d: nat, n: nat)
    requires |s| == |t| && d <= n <= |s| && s[d..] == t[d..] && multiset(s[..d]) == multiset(t[..d])
    requires forall i :: 0 <= i < d ==> s[i].dtype == DT_DIR && s[i].score == 0
    requires forall i :: d <= i < n ==> s[i].dtype != DT_DIR
    requires Sorted(t[..d])
    ensures DirsThenRest(t[..n], d)
  {
    forall i | 0 <= i < d
      ensures t[i].dtype == DT_DIR && t[i].score == 0
    {
      assert t[..d][i] in multiset(s[..d]);
      var k :| 0 <= k < d && s[..d][k] == t[i];
    }
    forall i | d <= i < n
      ensures t[i].dtype != DT_DIR
    {
      assert t[i] == t[d..][i - d] == s[d..][i - d];
    }
    forall i, j | 0 <= i < j < d
      ensures t[i].inode <= t[j].inode
    {
      assert AtMost(t[..d][i], t[..d][j]);
    }
  }

  /** How many entries the scan sorts, and with which score mask. */
  ghost function SortCall(es: seq<DirEntry>, f: Flags): (nat, nat) {
    if f.statOrder then (|es|, if f.dirsFirst then 7 else 0)
    else if f.dirsFirst then if f.foundUnknown then (|es|, 7) else (DirCount(es), 0)
    else (0, 0)
  }

  /** What the scan does at the end of the directory: sort as the flags say. The arguments of the sort are returned. */
  method SortDirents(l: Layout, dents: array<Dirent>, n: nat, f: Flags, inodeBits: nat, ghost es: seq<DirEntry>)
    returns (size: nat, scoreBits: nat)
    requires l.Valid() && n <= dents.Length && InodesFit(l, es)
    requires dents[..n] == DirentsOf(es, f.dirsFirst) && inodeBits == InodeMask(es)
    requires SortDefined(es, f)
    modifies dents
    ensures multiset(dents[..n]) == multiset(DirentsOf(es, f.dirsFirst))
    ensures Ordered(dents[..n], f)
    ensures !f.statOrder && !f.dirsFirst ==> dents[..n] == DirentsOf(es, f.dirsFirst)
    ensures (size, scoreBits) == SortCall(es, f)
  {
    size, scoreBits := 0, 0;
    if f.statOrder {
      size, scoreBits := n, if f.dirsFirst then 7 else 0;
      SortAll(l, dents, size, scoreBits, inodeBits, es, f.dirsFirst);
    } else if f.dirsFirst {
      if f.foundUnknown {
        size, scoreBits := n, 7;
        SortAll(l, dents, size, scoreBits, inodeBits, es, f.dirsFirst);
      } else {
        size := SortDirsOnly(l, dents, n, inodeBits, es);
      }
    }
  }

  // ---------------------------------------------------------------- the scan

  ghost predicate HasUnknown(es: seq<DirEntry>) {
    exists k :: 0 <= k < |es| && es[k].dtype == DT_UNKNOWN
  }

  /** The flags the scan ends with: FOUND_UNKNOWN is only ever set while dirents are collected. */
  ghost function FinalFlags(flags: Flags, es: seq<DirEntry>): Flags {
    var f := flags.Masked();
    if f.Any() && HasUnknown(es) then f.(foundUnknown := true) else f
  }

  /**
   * The flags a scan returns: the order flags only with dirents, and whether a type was unknown, which is only
   * noticed while dirents are collected.
   */
  predicate FlagsReturned(flags: Flags, int1: Flags, unknown: bool) {
    && int1.dents == flags.dents && int1.custom == flags.custom
    && (int1.dirsFirst <==> flags.dents && flags.dirsFirst)
    && (int1.statOrder <==> flags.dents && flags.statOrder)
    && (int1.foundUnknown <==> flags.foundUnknown || (unknown && (flags.dents || flags.custom)))
  }

  lemma KeptSubset(es: seq<DirEntry>)
    ensures forall e :: e in Kept(es) ==> e in es
  {
  }

  /**
   * eio__scandir. `dirOpened` tells whether opendir succeeded, `entries` is what readdir delivers,
   * `readError` whether it ends with an error, and `cancelAfter` after which entry the request is
   * first seen cancelled.
   */
  method Scan(l: Layout, dirOpened: bool, entries: seq<DirEntry>, readError: bool, cancelAfter: nat, flags: Flags)
    returns (result: int, int1: Flags, dents: array<Dirent>, names: array<char>, ghost order: seq<nat>)
    requires l.Valid() && InodesFit(l, entries) && NoNul(entries)
    requires SortDefined(Kept(entries), FinalFlags(flags, Kept(entries)))
    ensures result == (if dirOpened && !readError && |entries| <= cancelAfter then |Kept(entries)| else -1)
    ensures int1 == if result >= 0 then FinalFlags(flags, Kept(entries)) else flags
    ensures result >= 0 ==> FlagsReturned(flags, int1, HasUnknown(Kept(entries)))
    ensures result >= 0 ==> EncodedAt(names[..], 0, Kept(entries))
    ensures result >= 0 ==> Decode(names[..], 0, result) == NamesOf(Kept(entries))
    ensures result >= 0 && (flags.dents || flags.foundUnknown || flags.custom) ==>
      && result <= dents.Length
      && Lists(dents[..result], names[..], Kept(entries), order, flags.dents && flags.dirsFirst,
               flags.dents && flags.statOrder, int1.foundUnknown)
      && multiset(dents[..result]) == multiset(DirentsOf(Kept(entries), int1.dirsFirst))
      && (int1.statOrder || int1.dirsFirst || dents[..result] == DirentsOf(Kept(entries), int1.dirsFirst))
    ensures result >= 0 && !flags.dents && !flags.foundUnknown && !flags.custom ==> dents.Length == 0
  {
    hide Kept, Encode, DirentsOf, InodeMask, FinalFlags, EncodedAt, NoNul, InodesFit, SortDefined, Ordered,
      Decode, NamesOf, Lists, HasUnknown, Wanted, Score, FlagsReturned;
    result := -1;
    order := [];
    int1 := flags;
    var f := flags.Masked();
    var collect := f.Any();
    dents := new Dirent[if collect then 128 else 0];
    names := new char[4096];
    if !dirOpened {
      return;
    }
    var namesoffs: nat, dentoffs: nat, inodeBits: nat, i: nat := 0, 0, 0, 0;
    ghost var es := Kept(entries[..0]);
    NothingRead(entries[..0], flags);
    while true
      invariant 0 <= i <= |entries| && i <= cancelAfter && fresh(names) && fresh(dents)
      invariant es == Kept(entries[..i]) && dentoffs == |es|
      invariant f == FinalFlags(flags, es) && collect == f.Any()
      invariant 0 < names.Length && namesoffs <= names.Length && names[..namesoffs] == Encode(es)
      invariant collect ==>
        0 < dents.Length && dentoffs <= dents.Length && dents[..dentoffs] == DirentsOf(es, f.dirsFirst)
      invariant if collect then inodeBits == InodeMask(es) else dents.Length == 0
      decreases |entries| - i
    {
      if i == |entries| {
        assert entries[..i] == entries;
        if readError {
          break;
        }
        int1 := f;
        result := dentoffs;
        if collect {
          InodesFitKept(l, entries);
          var _, _ := SortDirents(l, dents, dentoffs, f, inodeBits, es);
        }
        EncodedNow(entries, names[..], namesoffs);
        DecodeEncode(es, names[..], 0);
        FlagsMean(flags, es);
        if collect {
          order := Listing(es, f, dents[..dentoffs], names[..]);
        }
        break;
      }
      var entp := entries[i];
      i := i + 1;
      assert entries[..i][..i - 1] == entries[..i - 1];
      KeptNext(entries[..i]);
      if Wanted(entp.name) {
        AppendEntry(es, entp, f.dirsFirst);
        if collect {
          var ent := DirentOf(entp, namesoffs, f.dirsFirst);
          dents := AppendDirent(dents, dentoffs, ent);
          inodeBits := Or(inodeBits, entp.inode);
          if entp.dtype == DT_UNKNOWN {
            f := f.(foundUnknown := true);
          }
        }
        names, namesoffs := AppendName(names, namesoffs, entp.name);
        FlagsNext(flags, es, entp);
        dentoffs := dentoffs + 1;
        es := es + [entp];
      }
      if cancelAfter < i {
        break;
      }
    }
  }

  /** The dirents are a listing of the entries in the order that the flags ask for. */
  lemma {:induction false} Listing(es: seq<DirEntry>, f: Flags, ds: seq<Dirent>, names: string)
    returns (order: seq<nat>)
    requires multiset(ds) == multiset(DirentsOf(es, f.dirsFirst)) && EncodedAt(names, 0, es) && Ordered(ds, f)
    requires !f.statOrder && !f.dirsFirst ==> ds == DirentsOf(es, f.dirsFirst)
    ensures Lists(ds, names, es, order, f.dirsFirst, f.statOrder, f.foundUnknown)
  {
    hide DirentsOf, Encode, Ordered, NoNul, Describes, Arranged;
    var all := DirentsOf(es, f.dirsFirst);
    forall k, m | 0 <= k < m < |all|
      ensures all[k] != all[m]
    {
      OffsetsDiffer(es, f.dirsFirst, k, m);
    }
    order := OrderOf(all, ds);
    OrderedArranged(es, f, ds, order);
    forall i | 0 <= i < |ds|
      ensures Describes(ds[i], es[order[i]], names)
    {
      DirentDescribes(es, f.dirsFirst, order[i], names);
    }
  }

  lemma {:induction false} OrderedArranged(es: seq<DirEntry>, f: Flags, ds: seq<Dirent>, order: seq<nat>)
    requires IsPermutation(order, |es|) && |ds| == |es| && Ordered(ds, f) && NoNul(es)
    requires forall i :: 0 <= i < |ds| ==> ds[i] == DirentsOf(es, f.dirsFirst)[order[i]]
    requires !f.statOrder && !f.dirsFirst ==> ds == DirentsOf(es, f.dirsFirst)
    ensures Arranged(es, order, f.dirsFirst, f.statOrder, f.foundUnknown)
  {
    hide Ordered, MayPrecede, DirentsOf, Encode;
    forall i, j | 0 <= i < j < |es|
      ensures MayPrecede(es[order[i]], es[order[j]], f.dirsFirst, f.statOrder, f.foundUnknown)
    {
      DirentAt(es, f.dirsFirst, order[i]);
      DirentAt(es, f.dirsFirst, order[j]);
      TwoInOrder(es[order[i]], es[order[j]], ds, f, i, j);
    }
    if !f.dirsFirst && !f.statOrder {
      forall i | 0 <= i < |es|
        ensures order[i] == i
      {
        NotMoved(es, f.dirsFirst, order[i], i);
      }
    }
  }

  lemma {:induction false} NotMoved(es: seq<DirEntry>, dirsFirst: bool, k: nat, i: nat)
    requires k < |es| && i < |es| && DirentsOf(es, dirsFirst)[k] == DirentsOf(es, dirsFirst)[i]
    ensures k == i
  {
    hide DirentsOf;
    if k < i {
      OffsetsDiffer(es, dirsFirst, k, i);
    } else if i < k {
      OffsetsDiffer(es, dirsFirst, i, k);
    }
  }

  lemma {:induction false} TwoInOrder(a: DirEntry, b: DirEntry, ds: seq<Dirent>, f: Flags, i: nat, j: nat)
    requires i < j < |ds| && Ordered(ds, f) && NUL !in a.name && NUL !in b.name
    requires ds[i] == DirentOf(a, ds[i].nameofs, f.dirsFirst) && ds[j] == DirentOf(b, ds[j].nameofs, f.dirsFirst)
    ensures MayPrecede(a, b, f.dirsFirst, f.statOrder, f.foundUnknown)
  {
    hide Score, Likelier;
    LikelierScore(a, b);
    LikelierScore(b, a);
    assert !f.dirsFirst ==> ds[i].score == ds[j].score by {
      NoGuess(a);
      NoGuess(b);
    }
    if f.statOrder || (f.dirsFirst && f.foundUnknown) {
      assert AtMost(ds[i], ds[j]);
    } else if f.dirsFirst {
      var d: nat :| DirsThenRest(ds, d);
    }
  }

  lemma NoGuess(e: DirEntry)
    ensures Score(e, false) == 7
  {
  }

  lemma FlagsMean(flags: Flags, es: seq<DirEntry>)
    ensures FlagsReturned(flags, FinalFlags(flags, es), HasUnknown(es))
    ensures FinalFlags(flags, es).Any() <==> flags.dents || flags.foundUnknown || flags.custom
    ensures FinalFlags(flags, es).dirsFirst <==> flags.dents && flags.dirsFirst
    ensures FinalFlags(flags, es).statOrder <==> flags.dents && flags.statOrder
  {
    hide HasUnknown;
  }

  lemma NothingRead(none: seq<DirEntry>, flags: Flags)
    requires none == []
    ensures Kept(none) == [] && Encode([]) == [] && InodeMask([]) == 0
    ensures DirentsOf([], flags.Masked().dirsFirst) == []
    ensures FinalFlags(flags, []) == flags.Masked()
  {
  }

  lemma KeptNext(es: seq<DirEntry>)
    requires es != []
    ensures Kept(es) == Kept(es[..|es| - 1]) + (if Wanted(es[|es| - 1].name) then [es[|es| - 1]] else [])
  {
  }

  lemma AppendEntry(es: seq<DirEntry>, e: DirEntry, dirsFirst: bool)
    ensures Encode(es + [e]) == Encode(es) + e.name + [NUL]
    ensures DirentsOf(es + [e], dirsFirst) == DirentsOf(es, dirsFirst) + [DirentOf(e, |Encode(es)|, dirsFirst)]
    ensures InodeMask(es + [e]) == Or(InodeMask(es), e.inode)
  {
    assert (es + [e])[..|es|] == es;
  }

  lemma EncodedNow(entries: seq<DirEntry>, names: string, namesoffs: nat)
    requires NoNul(entries) && namesoffs <= |names| && names[..namesoffs] == Encode(Kept(entries))
    ensures EncodedAt(names, 0, Kept(entries))
  {
    NoNulKept(entries);
  }

  lemma FlagsNext(flags: Flags, es: seq<DirEntry>, e: DirEntry)
    ensures FinalFlags(flags, es + [e]) ==
      (if flags.Masked().Any() && e.dtype == DT_UNKNOWN then FinalFlags(flags, es).(foundUnknown := true)
        else FinalFlags(flags, es))
    ensures FinalFlags(flags, es).Any() == flags.Masked().Any()
  {
    assert forall k :: 0 <= k < |es| ==> (es + [e])[k] == es[k];
    assert (es + [e])[|es|] == e;
    if HasUnknown(es) {
      var k :| 0 <= k < |es| && es[k].dtype == DT_UNKNOWN;
      assert (es + [e])[k].dtype == DT_UNKNOWN;
    }
  }

  lemma InodesFitKept(l: Layout, es: seq<DirEntry>)
    requires InodesFit(l, es)
    ensures InodesFit(l, Kept(es))
  {
    KeptSubset(es);
    forall j, k: nat | 0 <= j < |Kept(es)| && Bit(Kept(es)[j].inode, k)
      ensures k < 8 * l.Width()
    {
      assert Kept(es)[j] in es;
      var m :| 0 <= m < |es| && es[m] == Kept(es)[j];
    }
  }

  lemma NoNulKept(es: seq<DirEntry>)
    requires NoNul(es)
    ensures NoNul(Kept(es))
  {
    KeptSubset(es);
    forall k | 0 <= k < |Kept(es)|
      ensures NUL !in Kept(es)[k].name
    {
      assert Kept(es)[k] in es;
    }
  }

  // ---------------------------------------------------------------- when the sort has nothing to test

  /** SortDefined says exactly that the scan sorts at most 60 entries or has some bit to test. */
  lemma SortDefinedIff(l: Layout, es: seq<DirEntry>, f: Flags)
    requires InodesFit(l, es)
    ensures SortDefined(es, f) <==>
      (SortCall(es, f).0 > SORT_FAST ==> SomeBit(l, SortCall(es, f).1, InodeMask(es)))
  {
    hide InodeMask, SomeBit, SomeInode, DirCount;
    MaskFits(l, es);
    SomeInodeIff(es);
    SomeBitIff(l, SortCall(es, f).1, InodeMask(es));
  }

  lemma MaskFits(l: Layout, es: seq<DirEntry>)
    requires InodesFit(l, es)
    ensures forall k: nat :: Bit(InodeMask(es), k) ==> k < 8 * l.Width()
  {
    forall k: nat | Bit(InodeMask(es), k)
      ensures k < 8 * l.Width()
    {
      InodeMaskBits(es, k);
    }
  }

  lemma SomeInodeIff(es: seq<DirEntry>)
    ensures SomeInode(es) <==> InodeMask(es) != 0
  {
    if SomeInode(es) {
      var j :| 0 <= j < |es| && es[j].inode != 0;
      var k := NonzeroHasBit(es[j].inode);
      InodeMaskBits(es, k);
      ZeroBit(k);
    } else if InodeMask(es) != 0 {
      var k := NonzeroHasBit(InodeMask(es));
      InodeMaskBits(es, k);
      var j :| 0 <= j < |es| && Bit(es[j].inode, k);
      ZeroBit(k);
    }
  }

  // a directory of 61 entries on a system whose dirents have no inode number: f, ff, fff, ...
  function NoInodes(): (es: seq<DirEntry>)
    ensures |es| == 61
    ensures forall k :: 0 <= k < 61 ==> |es[k].name| == k + 1 && es[k].name[0] == 'f' && es[k].inode == 0
  {
    seq(61, k requires 0 <= k < 61 => DirEntry(seq(k + 1, _ => 'f'), DT_UNKNOWN, 0))
  }

  lemma {:induction false} KeepsAll(es: seq<DirEntry>)
    requires forall k :: 0 <= k < |es| ==> es[k].name != [] && es[k].name[0] == 'f'
    ensures Kept(es) == es
    decreases |es|
  {
    if es != [] {
      KeepsAll(es[..|es| - 1]);
      assert es == es[..|es| - 1] + [es[|es| - 1]];
    }
  }

  lemma NothingListed(l: Layout)
    ensures forall p: nat :: !Listed(l, 0, 0, p)
  {
    forall p: nat
      ensures !Listed(l, 0, 0, p)
    {
      ZeroBit(p);
      if p >= 8 * l.Width() {
        ZeroBit(p - 8 * l.Width());
      }
    }
  }

  lemma NoInodesMask()
    ensures Kept(NoInodes()) == NoInodes() && InodeMask(NoInodes()) == 0 && !SomeInode(NoInodes())
  {
    hide Kept, InodeMask, NoInodes;
    KeepsAll(NoInodes());
    SomeInodeIff(NoInodes());
  }

  /** Reading it in stat order sorts 61 entries, all with different names, with no bit to test. */
  lemma NothingToTest(l: Layout)
    ensures var es := Kept(NoInodes());
            var f := FinalFlags(Flags(true, false, true, false, false), es);
            && SortCall(es, f) == (61, 0) && !SortDefined(es, f)
            && forall p: nat :: !Listed(l, 0, InodeMask(es), p)
  {
    hide Kept, InodeMask, NoInodes, SomeInode, DirCount, HasUnknown, Listed;
    NoInodesMask();
    NothingListed(l);
  }
}
