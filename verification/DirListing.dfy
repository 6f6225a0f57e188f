/**
 * What a directory scan returns: the buffer of NUL-terminated names, and the dirents in the order that the
 * flags ask for.
 */
module DirListing {
  import opened Dirents

  const DT_UNKNOWN: nat := 0
  const DT_DIR: nat := 4
  const NUL: char := '\0'

  // One readdir() answer; `dtype` is the EIO_DT_* code of d_type, DT_UNKNOWN when not recognised.
  datatype DirEntry = DirEntry(name: string, dtype: nat, inode: nat)

  datatype Flags = Flags(dents: bool, dirsFirst: bool, statOrder: bool, foundUnknown: bool, custom: bool) {
    // the order flags mean nothing without dirents
    function Masked(): Flags {
      if dents then this else this.(dirsFirst := false, statOrder := false)
    }

    predicate Any() {
      dents || dirsFirst || statOrder || foundUnknown || custom
    }
  }

  // ---------------------------------------------------------------- specification

  /** C string indexing: the terminator is part of the string. */
  function CharAt(name: string, k: nat): char {
    if k < |name| then name[k] else NUL
  }

  /** Whether an entry is kept, from the first three characters of its name. */
  predicate Wanted(name: string) {
    CharAt(name, 0) != '.' || (CharAt(name, 1) != NUL && (CharAt(name, 1) != '.' || CharAt(name, 2) != NUL))
  }

  /** For names without NUL only "." and ".." are skipped. */
  lemma WantedMeans(name: string)
    requires NUL !in name
    ensures Wanted(name) <==> name != "." && name != ".."
  {
    assert forall k :: 0 <= k < |name| ==> CharAt(name, k) != NUL;
  }

  ghost function Kept(es: seq<DirEntry>): seq<DirEntry> {
    if es == [] then []
    else Kept(es[..|es| - 1]) + (if Wanted(es[|es| - 1].name) then [es[|es| - 1]] else [])
  }

  /** `kept` are the entries not named "." or "..", each once and in order; `from` tells their places. */
  ghost predicate Picked(es: seq<DirEntry>, kept: seq<DirEntry>, from: seq<nat>) {
    && |from| == |kept|
    && (forall k :: 0 <= k < |from| ==> from[k] < |es| && kept[k] == es[from[k]])
    && (forall k, m :: 0 <= k < m < |from| ==> from[k] < from[m])
    && (forall j :: 0 <= j < |es| ==> (j in from <==> es[j].name != "." && es[j].name != ".."))
  }

  lemma PickNext(es: seq<DirEntry>, kept: seq<DirEntry>, from: seq<nat>, e: DirEntry)
    requires Picked(es, kept, from)
    ensures e.name == "." || e.name == ".." ==> Picked(es + [e], kept, from)
    ensures e.name != "." && e.name != ".." ==> Picked(es + [e], kept + [e], from + [|es|])
  {
    var all, more := es + [e], from + [|es|];
    assert forall j :: 0 <= j < |es| ==> all[j] == es[j];
    assert all[|es|] == e;
    assert forall j :: j in more <==> j in from || j == |es|;
    assert forall k :: 0 <= k < |from| ==> from[k] in from;
  }

  lemma {:induction false} KeptMeans(es: seq<DirEntry>) returns (from: seq<nat>)
    requires forall k :: 0 <= k < |es| ==> NUL !in es[k].name
    ensures Picked(es, Kept(es), from)
    decreases |es|
  {
    from := [];
    if es != [] {
      var front, e := es[..|es| - 1], es[|es| - 1];
      from := KeptMeans(front);
      WantedMeans(e.name);
      hide Picked, Wanted;
      PickNext(front, Kept(front), from, e);
      assert es == front + [e];
      if Wanted(e.name) {
        from := from + [|front|];
      } else {
        assert Kept(es) == Kept(front);
      }
    }
  }

  /** The name buffer: every name followed by its NUL. */
  ghost function Encode(es: seq<DirEntry>): string {
    if es == [] then [] else Encode(es[..|es| - 1]) + es[|es| - 1].name + [NUL]
  }

  /** The guess how likely an entry is a directory; `len` counts the NUL. */
  function Score(e: DirEntry, dirsFirst: bool): nat {
    var len := |e.name| + 1;
    if !dirsFirst then 7
    else if e.dtype == DT_UNKNOWN then
      if CharAt(e.name, 0) == '.' then 1
      else if '.' !in e.name then
        if len <= 2 then 4 - len else if len <= 4 then 4 else if len <= 7 then 5 else 6
      else 7
    else if e.dtype == DT_DIR then 0
    else 7
  }

  function DirentOf(e: DirEntry, nameofs: nat, dirsFirst: bool): Dirent {
    Dirent(nameofs, |e.name| % 65536, e.dtype, Score(e, dirsFirst), e.inode)
  }

  ghost function DirentsOf(es: seq<DirEntry>, dirsFirst: bool): (ds: seq<Dirent>)
    ensures |ds| == |es|
  {
    if es == [] then []
    else DirentsOf(es[..|es| - 1], dirsFirst) + [DirentOf(es[|es| - 1], |Encode(es[..|es| - 1])|, dirsFirst)]
  }

  /** A dirent describes an entry, and its offset leads to that entry's name in the buffer. */
  ghost predicate Describes(d: Dirent, e: DirEntry, buf: string) {
    && d.namelen == |e.name| % 65536 && d.dtype == e.dtype && d.inode == e.inode
    && d.nameofs + |e.name| < |buf|
    && buf[d.nameofs..d.nameofs + |e.name|] == e.name
    && buf[d.nameofs + |e.name|] == NUL
  }

  /** Walking a name buffer, `n` names from offset `off`. */
  ghost function Decode(buf: string, off: nat, n: nat): seq<string>
    decreases n
  {
    if n == 0 || |buf| < off then []
    else
      var s := CString(buf, off);
      [s] + Decode(buf, off + |s| + 1, n - 1)
  }

  ghost function CString(buf: string, off: nat): string
    requires off <= |buf|
    decreases |buf| - off
  {
    if off == |buf| || buf[off] == NUL then [] else [buf[off]] + CString(buf, off + 1)
  }

  ghost function NamesOf(es: seq<DirEntry>): seq<string> {
    seq(|es|, k requires 0 <= k < |es| => es[k].name)
  }

  // ---------------------------------------------------------------- the buffer decodes to its names

  lemma {:induction false} EncodeFirst(es: seq<DirEntry>)
    requires es != []
    ensures Encode(es) == es[0].name + [NUL] + Encode(es[1..])
  {
    hide Encode;
    EncodeLast(es);
    var front, tail := es[..|es| - 1], es[1..];
    if |es| > 1 {
      EncodeFirst(front);
      EncodeLast(tail);
      assert front[0] == es[0] && tail[..|tail| - 1] == front[1..] && tail[|tail| - 1] == es[|es| - 1];
      Regroup(es[0].name + [NUL], Encode(front[1..]), es[|es| - 1].name + [NUL]);
    } else {
      assert front == [] && tail == [];
      EncodeNone();
    }
  }

  lemma EncodeLast(es: seq<DirEntry>)
    requires es != []
    ensures Encode(es) == Encode(es[..|es| - 1]) + (es[|es| - 1].name + [NUL])
  {
  }

  lemma EncodeNone()
    ensures Encode([]) == []
  {
  }

  lemma Regroup<T>(a: seq<T>, b: seq<T>, c: seq<T>)
    ensures (a + b) + c == a + (b + c)
  {
  }

  lemma {:induction false} CStringReads(buf: string, off: nat, name: string)
    requires NUL !in name && off + |name| < |buf|
    requires buf[off..off + |name|] == name && buf[off + |name|] == NUL
    ensures CString(buf, off) == name
    decreases |name|
  {
    if name != [] {
      assert buf[off] == name[0];
      assert buf[off + 1..off + 1 + |name[1..]|] == name[1..];
      CStringReads(buf, off + 1, name[1..]);
    }
  }

  ghost predicate NoNul(es: seq<DirEntry>) {
    forall k :: 0 <= k < |es| ==> NUL !in es[k].name
  }

  /** The names of `es` are encoded in `buf` from offset `pos` on. */
  ghost predicate EncodedAt(buf: string, pos: nat, es: seq<DirEntry>) {
    NoNul(es) && pos + |Encode(es)| <= |buf| && buf[pos..pos + |Encode(es)|] == Encode(es)
  }

  lemma FirstName(buf: string, pos: nat, es: seq<DirEntry>)
    requires EncodedAt(buf, pos, es) && es != []
    ensures pos + |es[0].name| < |buf|
    ensures buf[pos..pos + |es[0].name|] == es[0].name && buf[pos + |es[0].name|] == NUL
    ensures NUL !in es[0].name && EncodedAt(buf, pos + |es[0].name| + 1, es[1..])
  {
    EncodeFirst(es);
    hide Encode;
    SplitEncoded(buf, pos, es[0].name, Encode(es[1..]));
  }

  lemma SplitEncoded(buf: string, pos: nat, name: string, tail: string)
    requires pos + |name| + 1 + |tail| <= |buf|
    requires buf[pos..pos + |name| + 1 + |tail|] == name + [NUL] + tail
    ensures buf[pos..pos + |name|] == name && buf[pos + |name|] == NUL
    ensures buf[pos + |name| + 1..pos + |name| + 1 + |tail|] == tail
  {
    var n, whole := |name|, buf[pos..pos + |name| + 1 + |tail|];
    assert whole[..n] == name && whole[n] == NUL && whole[n + 1..] == tail;
    assert buf[pos..pos + n] == whole[..n];
    assert buf[pos + n] == whole[n];
    assert buf[pos + n + 1..pos + n + 1 + |tail|] == whole[n + 1..];
  }

  lemma NamesFrom(es: seq<DirEntry>, i: nat)
    requires i <= |es|
    ensures i < |es| ==> NamesOf(es[i..]) == [es[i].name] + NamesOf(es[i + 1..])
  {
  }

  lemma NoNames(es: seq<DirEntry>)
    ensures es == [] ==> NamesOf(es) == []
  {
  }

  /** Walking the buffer yields exactly the names, in order. */
  lemma {:induction false} DecodeEncode(es: seq<DirEntry>, buf: string, off: nat)
    requires EncodedAt(buf, off, es)
    ensures Decode(buf, off, |es|) == NamesOf(es)
    decreases |es|
  {
    hide EncodedAt, CString, NamesOf;
    if es == [] {
      NoNames(es);
    } else {
      FirstName(buf, off, es);
      CStringReads(buf, off, es[0].name);
      DecodeEncode(es[1..], buf, off + |es[0].name| + 1);
      NamesFrom(es, 0);
      assert es[0..] == es;
    }
  }

  lemma {:induction false} EncodePrefix(es: seq<DirEntry>, k: nat)
    requires k <= |es|
    ensures |Encode(es[..k])| <= |Encode(es)| && Encode(es)[..|Encode(es[..k])|] == Encode(es[..k])
    decreases |es|
  {
    if k < |es| {
      var front := es[..|es| - 1];
      EncodePrefix(front, k);
      assert front[..k] == es[..k];
    } else {
      assert es[..k] == es;
    }
  }

  lemma {:induction false} DirentAt(es: seq<DirEntry>, dirsFirst: bool, k: nat)
    requires k < |es|
    ensures DirentsOf(es, dirsFirst)[k] == DirentOf(es[k], |Encode(es[..k])|, dirsFirst)
    decreases |es|
  {
    if k < |es| - 1 {
      var front := es[..|es| - 1];
      DirentAt(front, dirsFirst, k);
      assert front[..k] == es[..k] && front[k] == es[k];
    }
  }

  /** Entry `k` of the dirents describes entry `k` of the directory. */
  lemma DirentDescribes(es: seq<DirEntry>, dirsFirst: bool, k: nat, buf: string)
    requires k < |es| && |Encode(es)| <= |buf| && buf[..|Encode(es)|] == Encode(es)
    ensures Describes(DirentsOf(es, dirsFirst)[k], es[k], buf)
  {
    DirentAt(es, dirsFirst, k);
    EncodePrefix(es, k + 1);
    assert es[..k + 1][..k] == es[..k];
    var front, part := Encode(es[..k]), Encode(es[..k + 1]);
    assert part == front + es[k].name + [NUL];
    hide Encode, DirentsOf;
    assert buf[..|part|] == buf[..|Encode(es)|][..|part|];
    NameInside(buf, front, es[k].name);
  }

  lemma NameInside(buf: string, front: string, name: string)
    requires |front| + |name| < |buf| && buf[..|front| + |name| + 1] == front + name + [NUL]
    ensures buf[|front|..|front| + |name|] == name && buf[|front| + |name|] == NUL
  {
    var part := front + name + [NUL];
    assert buf[|front|..|front| + |name|] == part[|front|..|front| + |name|];
    assert buf[|front| + |name|] == part[|front| + |name|];
  }

  // ---------------------------------------------------------------- the dirents, one for each entry

  /** Every index below `n`, once. */
  ghost predicate IsPermutation(order: seq<nat>, n: nat) {
    && |order| == n
    && (forall i :: 0 <= i < n ==> order[i] < n)
    && (forall i, j :: 0 <= i < j < n ==> order[i] != order[j])
  }

  lemma OffsetsDiffer(es: seq<DirEntry>, dirsFirst: bool, k: nat, m: nat)
    requires k < m < |es|
    ensures DirentsOf(es, dirsFirst)[k].nameofs < DirentsOf(es, dirsFirst)[m].nameofs
  {
    DirentAt(es, dirsFirst, k);
    DirentAt(es, dirsFirst, m);
    EncodePrefix(es[..m], k + 1);
    assert es[..m][..k + 1] == es[..k + 1] && es[..k + 1][..k] == es[..k];
  }

  /** A rearrangement of distinct elements says where each one comes from. */
  lemma OrderOf<T(!new)>(s: seq<T>, t: seq<T>) returns (order: seq<nat>)
    requires multiset(s) == multiset(t) && forall k, m :: 0 <= k < m < |s| ==> s[k] != s[m]
    ensures IsPermutation(order, |s|) && |t| == |s| && forall i :: 0 <= i < |t| ==> t[i] == s[order[i]]
  {
    assert |s| == |multiset(s)| == |multiset(t)| == |t|;
    order := [];
    while |order| < |t|
      invariant |order| <= |t|
      invariant forall i :: 0 <= i < |order| ==> order[i] < |s| && t[i] == s[order[i]]
    {
      assert t[|order|] in multiset(s);
      var k :| 0 <= k < |s| && s[k] == t[|order|];
      order := order + [k];
    }
    forall i, j | 0 <= i < j < |t|
      ensures order[i] != order[j]
    {
      if t[i] == t[j] {
        Twice(t, i, j);
        Once(s, order[i]);
      }
    }
  }

  lemma Twice<T>(t: seq<T>, i: nat, j: nat)
    requires i < j < |t| && t[i] == t[j]
    ensures multiset(t)[t[i]] >= 2
  {
    assert t == t[..j] + [t[j]] + t[j + 1..];
    assert t[..j][i] in multiset(t[..j]);
  }

  lemma Once<T>(s: seq<T>, k: nat)
    requires k < |s| && forall m :: 0 <= m < |s| && m != k ==> s[m] != s[k]
    ensures multiset(s)[s[k]] == 1
  {
    assert s == s[..k] + [s[k]] + s[k + 1..];
    assert s[k] !in s[..k] && s[k] !in s[k + 1..];
  }

  // ---------------------------------------------------------------- the order of the dirents

  // of unknown type, with a leading dot
  predicate Dotted(e: DirEntry) {
    e.dtype == DT_UNKNOWN && e.name != [] && e.name[0] == '.'
  }

  // of unknown type, without any dot
  predicate Plain(e: DirEntry) {
    e.dtype == DT_UNKNOWN && '.' !in e.name
  }

  /** Names of 1, of 2 or 3, of 4 to 6, and of more characters; an empty name comes after those of 1. */
  predicate ShorterClass(a: string, b: string) {
    (|a| <= 1 < |b|) || (|a| <= 3 < |b|) || (|a| <= 6 < |b|) || (|a| == 1 && b == [])
  }

  /**
   * `a` is the likelier directory: directories first, then names with a leading dot, then names without a
   * dot, the shorter the likelier, and then everything else.
   */
  predicate Likelier(a: DirEntry, b: DirEntry) {
    || (a.dtype == DT_DIR && b.dtype != DT_DIR)
    || (Dotted(a) && b.dtype != DT_DIR && !Dotted(b))
    || (Plain(a) && Plain(b) && ShorterClass(a.name, b.name))
    || (Plain(a) && b.dtype != DT_DIR && !Dotted(b) && !Plain(b))
  }

  /** The score orders entries in exactly this way. */
  lemma LikelierScore(a: DirEntry, b: DirEntry)
    requires NUL !in a.name && NUL !in b.name
    ensures Score(a, true) < Score(b, true) <==> Likelier(a, b)
  {
  }

  /** Whether `a` may stand before `b` in a listing; `guess` tells whether some type is unknown. */
  predicate MayPrecede(a: DirEntry, b: DirEntry, dirsFirst: bool, statOrder: bool, guess: bool) {
    if dirsFirst && (statOrder || guess) then
      Likelier(a, b) || (!Likelier(b, a) && a.inode <= b.inode)
    else if statOrder then
      a.inode <= b.inode
    else
      dirsFirst && b.dtype == DT_DIR ==> a.dtype == DT_DIR && a.inode <= b.inode
  }

  /** The entries, taken in this order, are as the flags ask for. */
  ghost predicate Arranged(es: seq<DirEntry>, order: seq<nat>, dirsFirst: bool, statOrder: bool, guess: bool)
    requires IsPermutation(order, |es|)
  {
    && (forall i, j :: 0 <= i < j < |es| ==> MayPrecede(es[order[i]], es[order[j]], dirsFirst, statOrder, guess))
    && (!dirsFirst && !statOrder ==> forall i :: 0 <= i < |es| ==> order[i] == i)
  }

  /** The dirents describe the entries, one each, in an order the flags ask for. */
  ghost predicate Lists(ds: seq<Dirent>, names: string, es: seq<DirEntry>, order: seq<nat>, dirsFirst: bool,
                        statOrder: bool, guess: bool) {
    && |ds| == |es| && IsPermutation(order, |es|)
    && (forall i :: 0 <= i < |ds| ==> Describes(ds[i], es[order[i]], names))
    && Arranged(es, order, dirsFirst, statOrder, guess)
  }

  /** Whatever the mode, directories come first if the flag asks for it. */
  lemma DirsInFront(es: seq<DirEntry>, order: seq<nat>, statOrder: bool, guess: bool, i: nat, j: nat)
    requires IsPermutation(order, |es|) && Arranged(es, order, true, statOrder, guess) && i < j < |es|
    ensures es[order[j]].dtype == DT_DIR ==> es[order[i]].dtype == DT_DIR
  {
    assert MayPrecede(es[order[i]], es[order[j]], true, statOrder, guess);
  }
}
