/**
 * The radix pass of eio_dent_sort: partition on one bit after another, highest first, with an
 * explicit stack, and leave partitions below the cutoff alone.
 */
module RadixSort {
  import opened Bits
  import opened Dirents

  /**
   * Where the two key fields of a dirent live in memory. `bytePos[n]` is the memory offset, within
   * the inode field, of the byte of numeric significance `n`; any byte order is allowed.
   */
  datatype Layout = Layout(inodeOffs: nat, scoreOffs: nat, bytePos: seq<nat>) {
    // sizeof (ino_t)
    function Width(): nat {
      |bytePos|
    }

    // what the assertions at the head of the radix sort demand of the compiler
    ghost predicate Valid() {
      && 0 < Width()
      && 0 < inodeOffs && 0 < scoreOffs
      && !(inodeOffs <= scoreOffs < inodeOffs + Width())
      && (inodeOffs + Width()) * 8 < 256 && (scoreOffs + 1) * 8 < 256
      && (forall n :: 0 <= n < Width() ==> bytePos[n] < Width())
      && (forall m, n :: 0 <= m < n < Width() ==> bytePos[m] != bytePos[n])
    }
  }

  /** The key bit at position `p`: inode bits first, score bits above them. */
  predicate KeyBit(l: Layout, d: Dirent, p: nat) {
    if p < 8 * l.Width() then Bit(d.inode, p) else Bit(d.score, p - 8 * l.Width())
  }

  /** The bit address of key position `p`: eight times the byte offset, plus the bit in the byte. */
  function Address(l: Layout, p: nat): nat {
    if p < 8 * l.Width() then (l.inodeOffs + l.bytePos[p / 8]) * 8 + p % 8
    else l.scoreOffs * 8 + (p - 8 * l.Width())
  }

  /** The numeric significance of the inode byte stored at memory offset `m` of the field. */
  function ByteAt(bytePos: seq<nat>, m: nat): (n: nat)
    requires m in bytePos
    ensures n < |bytePos| && bytePos[n] == m
  {
    if bytePos[0] == m then 0 else 1 + ByteAt(bytePos[1..], m)
  }

  /** The bit addresses that lie inside the inode or the score field. */
  predicate IsKeyAddress(l: Layout, addr: nat) {
    || addr / 8 == l.scoreOffs
    || (l.inodeOffs <= addr / 8 && addr / 8 - l.inodeOffs in l.bytePos)
  }

  /** What the byte at `addr / 8` of the dirent says at bit `addr % 8`. */
  predicate TestBit(l: Layout, d: Dirent, addr: nat)
    requires IsKeyAddress(l, addr)
  {
    if addr / 8 == l.scoreOffs then Bit(d.score, addr % 8)
    else Bit(d.inode, 8 * ByteAt(l.bytePos, addr / 8 - l.inodeOffs) + addr % 8)
  }

  /** An address tests the key bit it was made for, whatever the byte order, and is never 0. */
  lemma AddressTestsKeyBit(l: Layout, d: Dirent, p: nat)
    requires l.Valid() && p < 8 * l.Width() + 8
    ensures 0 < Address(l, p) < 256
    ensures IsKeyAddress(l, Address(l, p))
    ensures TestBit(l, d, Address(l, p)) == KeyBit(l, d, p)
  {
    if p < 8 * l.Width() {
      var m := l.bytePos[p / 8];
      assert m in l.bytePos;
      var n := ByteAt(l.bytePos, m);
      assert n == p / 8;
    }
  }

  // position p is one that the table must list
  predicate Listed(l: Layout, scoreBits: nat, inodeBits: nat, p: nat) {
    if p < 8 * l.Width() then Bit(inodeBits, p)
    else p < 8 * l.Width() + 8 && Bit(scoreBits, p - 8 * l.Width())
  }

  /** What eio_dent_sort expects of its caller about the scores and the inode mask. */
  ghost predicate BitsCover(l: Layout, s: seq<Dirent>, scoreBits: nat, inodeBits: nat) {
    && (forall k: nat :: Bit(inodeBits, k) ==> k < 8 * l.Width())
    && (forall i :: 0 <= i < |s| ==> s[i].score <= 100)
    && (forall i, k: nat :: 0 <= i < |s| && Bit(s[i].inode, k) ==> Bit(inodeBits, k))
    && (forall i, j, k: nat :: 0 <= i < |s| && 0 <= j < |s| && Bit(s[i].score, k) != Bit(s[j].score, k)
          ==> ScoreBitListed(scoreBits, k))
  }

  predicate ScoreBitListed(scoreBits: nat, k: nat) {
    k < 8 && Bit(scoreBits, k)
  }

  /** All entries agree on a position that is not listed. */
  lemma UnlistedAgree(l: Layout, s: seq<Dirent>, scoreBits: nat, inodeBits: nat, i: nat, j: nat, p: nat)
    requires BitsCover(l, s, scoreBits, inodeBits) && i < |s| && j < |s|
    requires !Listed(l, scoreBits, inodeBits, p)
    ensures KeyBit(l, s[i], p) == KeyBit(l, s[j], p)
  {
    if p < 8 * l.Width() {
      assert Bit(s[i].inode, p) ==> Bit(inodeBits, p);
      assert Bit(s[j].inode, p) ==> Bit(inodeBits, p);
    } else {
      var k: nat := p - 8 * l.Width();
      assert Bit(s[i].score, k) != Bit(s[j].score, k) ==> ScoreBitListed(scoreBits, k);
    }
  }

  /** The highest differing key position decides the order of two entries. */
  lemma TopKeyBitDecides(l: Layout, x: Dirent, y: Dirent, p: nat)
    requires forall k: nat :: Bit(x.inode, k) || Bit(y.inode, k) ==> k < 8 * l.Width()
    requires !KeyBit(l, x, p) && KeyBit(l, y, p)
    requires forall q: nat :: p < q ==> KeyBit(l, x, q) == KeyBit(l, y, q)
    ensures Less(x, y)
  {
    var w := 8 * l.Width();
    if p < w {
      forall k: nat
        ensures Bit(x.score, k) == Bit(y.score, k)
      {
        assert KeyBit(l, x, w + k) == KeyBit(l, y, w + k);
      }
      SameBits(x.score, y.score);
      forall k: nat | p < k
        ensures Bit(x.inode, k) == Bit(y.inode, k)
      {
        assert KeyBit(l, x, k) == KeyBit(l, y, k);
      }
      TopBitDecides(x.inode, y.inode, p);
    } else {
      forall k: nat | p - w < k
        ensures Bit(x.score, k) == Bit(y.score, k)
      {
        assert KeyBit(l, x, w + k) == KeyBit(l, y, w + k);
      }
      TopBitDecides(x.score, y.score, p - w);
    }
  }

  /** Entries without a differing key position have the same key. */
  lemma NoKeyBitDiffers(l: Layout, x: Dirent, y: Dirent)
    requires forall k: nat :: Bit(x.inode, k) || Bit(y.inode, k) ==> k < 8 * l.Width()
    requires forall q: nat :: KeyBit(l, x, q) == KeyBit(l, y, q)
    ensures SameKey(x, y)
  {
    var w := 8 * l.Width();
    forall k: nat
      ensures Bit(x.score, k) == Bit(y.score, k) && Bit(x.inode, k) == Bit(y.inode, k)
    {
      assert KeyBit(l, x, w + k) == KeyBit(l, y, w + k);
      assert KeyBit(l, x, k) == KeyBit(l, y, k);
    }
    SameBits(x.score, y.score);
    SameBits(x.inode, y.inode);
  }

  // ---------------------------------------------------------------- the table of bits to test

  /** The number whose bytes in memory are `mem`. */
  function ReadWord(bytePos: seq<nat>, mem: seq<nat>): nat
    requires forall n :: 0 <= n < |bytePos| ==> bytePos[n] < |mem|
  {
    if bytePos == [] then 0 else mem[bytePos[0]] + 256 * ReadWord(bytePos[1..], mem)
  }

  /** The positions listed by the table, in increasing order, exactly those that need a test. */
  ghost predicate ListsUpTo(l: Layout, scoreBits: nat, inodeBits: nat, posns: seq<nat>, upto: nat) {
    && (forall q, r :: 0 <= q < r < |posns| ==> posns[q] < posns[r])
    && (forall p: nat :: p in posns <==> p < upto && Listed(l, scoreBits, inodeBits, p))
  }

  ghost predicate TableHolds(l: Layout, bits: seq<nat>, posns: seq<nat>)
  {
    && |posns| < |bits|
    && bits[0] == 0
    && (forall q :: 0 <= q < |posns| ==> posns[q] < 8 * l.Width() + 8 && bits[q + 1] == Address(l, posns[q]))
  }

  lemma {:induction false} IncreasingFits(posns: seq<nat>, upto: nat)
    requires forall q, r :: 0 <= q < r < |posns| ==> posns[q] < posns[r]
    requires forall q :: 0 <= q < |posns| ==> posns[q] < upto
    ensures |posns| <= upto
    decreases |posns|
  {
    if |posns| > 0 {
      IncreasingFits(posns[..|posns| - 1], posns[|posns| - 1]);
    }
  }

  /** Listing one more position. */
  lemma ListNext(l: Layout, scoreBits: nat, inodeBits: nat, posns: seq<nat>, p: nat) returns (posns': seq<nat>)
    requires ListsUpTo(l, scoreBits, inodeBits, posns, p)
    ensures posns' == if Listed(l, scoreBits, inodeBits, p) then posns + [p] else posns
    ensures ListsUpTo(l, scoreBits, inodeBits, posns', p + 1)
    ensures |posns'| <= p + 1
  {
    posns' := if Listed(l, scoreBits, inodeBits, p) then posns + [p] else posns;
    forall q | 0 <= q < |posns|
      ensures posns[q] < p
    {
      assert posns[q] in posns;
    }
    forall q: nat
      ensures q in posns' <==> q < p + 1 && Listed(l, scoreBits, inodeBits, q)
    {
    }
    forall q | 0 <= q < |posns'|
      ensures posns'[q] < p + 1
    {
      assert posns'[q] in posns';
    }
    IncreasingFits(posns', p + 1);
  }

  lemma TableAppend(l: Layout, bits: seq<nat>, posns: seq<nat>, p: nat)
    requires TableHolds(l, bits, posns) && 1 + |posns| < |bits| && p < 8 * l.Width() + 8
    ensures TableHolds(l, bits[1 + |posns| := Address(l, p)], posns + [p])
  {
  }

  lemma EndiannessByte(bytePos: seq<nat>, mem: seq<nat>, i: nat)
    requires forall n :: 0 <= n < |bytePos| ==> bytePos[n] < |mem|
    requires forall n :: 0 <= n < |mem| ==> mem[n] == n < 256
    requires i < |bytePos|
    ensures ReadWord(bytePos[i..], mem) % 256 == bytePos[i]
    ensures ReadWord(bytePos[i..], mem) / 256 == ReadWord(bytePos[i + 1..], mem)
  {
    assert bytePos[i..][1..] == bytePos[i + 1..];
  }

  /** The table `bits[..bit]` lists exactly the positions below `upto` that need a test. */
  ghost predicate TableUpTo(l: Layout, scoreBits: nat, inodeBits: nat, bits: seq<nat>, bit: nat, posns: seq<nat>,
                            upto: nat) {
    && bit == 1 + |posns| && bit <= 1 + upto
    && TableHolds(l, bits, posns)
    && ListsUpTo(l, scoreBits, inodeBits, posns, upto)
  }

  /** Append the address of the next position `p`, which needs a test. */
  method PutBit(l: Layout, scoreBits: nat, inodeBits: nat, bits: array<nat>, bit: nat, addr: nat,
                ghost posns: seq<nat>, ghost p: nat)
    returns (bit': nat, ghost posns': seq<nat>)
    requires p < 8 * l.Width() + 8 && 1 + p < bits.Length
    requires addr == Address(l, p) && Listed(l, scoreBits, inodeBits, p)
    requires TableUpTo(l, scoreBits, inodeBits, bits[..], bit, posns, p)
    modifies bits
    ensures TableUpTo(l, scoreBits, inodeBits, bits[..], bit', posns', p + 1)
  {
    TableAppend(l, bits[..], posns, p);
    posns' := ListNext(l, scoreBits, inodeBits, posns, p);
    bits[bit] := addr;
    bit' := bit + 1;
  }

  lemma EmptyTable(l: Layout, scoreBits: nat, inodeBits: nat, bits: seq<nat>)
    requires |bits| > 0 && bits[0] == 0
    ensures TableUpTo(l, scoreBits, inodeBits, bits, 1, [], 0)
  {
  }

  lemma SkipBit(l: Layout, scoreBits: nat, inodeBits: nat, bits: seq<nat>, bit: nat, posns: seq<nat>, p: nat)
    requires TableUpTo(l, scoreBits, inodeBits, bits, bit, posns, p) && !Listed(l, scoreBits, inodeBits, p)
    ensures TableUpTo(l, scoreBits, inodeBits, bits, bit, posns, p + 1)
  {
    var _ := ListNext(l, scoreBits, inodeBits, posns, p);
  }

  lemma InodePosition(l: Layout, scoreBits: nat, inodeBits: nat, i: nat, j: nat)
    requires i < l.Width() && j < 8
    ensures 8 * i + j < 8 * l.Width() && Address(l, 8 * i + j) == (l.inodeOffs + l.bytePos[i]) * 8 + j
    ensures Listed(l, scoreBits, inodeBits, 8 * i + j) <==> Bit(inodeBits, i * 8 + j)
  {
    hide Bit;
    assert (8 * i + j) / 8 == i && (8 * i + j) % 8 == j;
  }

  lemma ScorePosition(l: Layout, scoreBits: nat, inodeBits: nat, j: nat)
    requires j < 8
    ensures Address(l, 8 * l.Width() + j) == l.scoreOffs * 8 + j
    ensures Listed(l, scoreBits, inodeBits, 8 * l.Width() + j) <==> Bit(scoreBits, j)
  {
    hide Bit;
  }

  /** The first block of eio_dent_radix_sort: fill the table; bits[0] is the sentinel. */
  method BuildBitTable(l: Layout, scoreBits: nat, inodeBits: nat)
    returns (bits: array<nat>, bit: nat, ghost posns: seq<nat>)
    requires l.Valid()
    ensures fresh(bits) && bits.Length == 9 + 8 * l.Width()
    ensures TableUpTo(l, scoreBits, inodeBits, bits[..], bit, posns, 8 * l.Width() + 8)
  {
    hide TableUpTo, ListsUpTo, TableHolds, Address, Listed, Bit, ReadWord;
    var W := l.Width();
    bits := new nat[9 + 8 * W];
    // the byte offset of each byte is stored into that byte of "endianness"
    var mem := seq(W, m => m);
    var endianness := ReadWord(l.bytePos, mem);
    assert l.bytePos[0..] == l.bytePos;
    bits[0] := 0;
    bit := 1;
    posns := [];
    EmptyTable(l, scoreBits, inodeBits, bits[..]);
    for i := 0 to W
      invariant endianness == ReadWord(l.bytePos[i..], mem)
      invariant TableUpTo(l, scoreBits, inodeBits, bits[..], bit, posns, 8 * i)
    {
      EndiannessByte(l.bytePos, mem, i);
      var offs := (l.inodeOffs + endianness % 256) * 8;
      endianness := endianness / 256;
      for j := 0 to 8
        invariant TableUpTo(l, scoreBits, inodeBits, bits[..], bit, posns, 8 * i + j)
      {
        ghost var p := 8 * i + j;
        InodePosition(l, scoreBits, inodeBits, i, j);
        if Bit(inodeBits, i * 8 + j) {
          bit, posns := PutBit(l, scoreBits, inodeBits, bits, bit, offs + j, posns, p);
        } else {
          SkipBit(l, scoreBits, inodeBits, bits[..], bit, posns, p);
        }
      }
    }
    for j := 0 to 8
      invariant TableUpTo(l, scoreBits, inodeBits, bits[..], bit, posns, 8 * W + j)
    {
      ghost var p := 8 * W + j;
      ScorePosition(l, scoreBits, inodeBits, j);
      if Bit(scoreBits, j) {
        bit, posns := PutBit(l, scoreBits, inodeBits, bits, bit, l.scoreOffs * 8 + j, posns, p);
      } else {
        SkipBit(l, scoreBits, inodeBits, bits[..], bit, posns, p);
      }
    }
  }

  lemma FirstAddress(l: Layout, scoreBits: nat, inodeBits: nat, bits: seq<nat>, bit: nat, posns: seq<nat>)
    requires l.Valid() && TableUpTo(l, scoreBits, inodeBits, bits, bit, posns, 8 * l.Width() + 8)
    ensures 0 < bit <= |bits|
    ensures 1 < bit <==> exists p: nat :: Listed(l, scoreBits, inodeBits, p)
    ensures IsKeyAddress(l, bits[bit - 1]) <==> 1 < bit
  {
    if 1 < bit {
      assert posns[0] in posns && Listed(l, scoreBits, inodeBits, posns[0]);
      AddressTestsKeyBit(l, Dirent(0, 0, 0, 0, 0), posns[bit - 2]);
    }
    assert forall p: nat :: Listed(l, scoreBits, inodeBits, p) ==> p in posns;
  }

  /**
   * The first two indices at which the sort reads the table: its last entry, and the one before. They are a
   * key address and an index inside the table if and only if some position needs a test; otherwise the first
   * is the sentinel, used as an address, and the second is -1.
   */
  method FirstReads(l: Layout, scoreBits: nat, inodeBits: nat) returns (bits: array<nat>, first: int, second: int)
    requires l.Valid()
    ensures first == second + 1 && 0 <= first < bits.Length
    ensures IsKeyAddress(l, bits[first]) <==> exists p: nat :: Listed(l, scoreBits, inodeBits, p)
    ensures 0 <= second <==> exists p: nat :: Listed(l, scoreBits, inodeBits, p)
    ensures second < 0 ==> second == -1 && bits[first] == 0
  {
    var bit: nat;
    ghost var posns;
    bits, bit, posns := BuildBitTable(l, scoreBits, inodeBits);
    FirstAddress(l, scoreBits, inodeBits, bits[..], bit, posns);
    first := bit - 1;
    second := first - 1;
  }

  // ---------------------------------------------------------------- partitioning on one bit

  /** The entries of [base, mid) have the bit clear, those of [mid, end) have it set. */
  ghost predicate Split(l: Layout, s: seq<Dirent>, base: nat, mid: nat, end: nat, addr: nat) {
    && base <= mid <= end <= |s| && IsKeyAddress(l, addr)
    && (forall i :: base <= i < mid ==> !TestBit(l, s[i], addr))
    && (forall i :: mid <= i < end ==> TestBit(l, s[i], addr))
  }

  lemma SplitPrefix(l: Layout, s: seq<Dirent>, base: nat, mid: nat, end: nat, addr: nat, n: nat)
    requires Split(l, s, base, mid, end, addr) && end <= n <= |s|
    ensures Split(l, s[..n], base, mid, end, addr)
  {
  }

  /** In [base, a) the bit is clear, in [b, end) it is set. */
  ghost predicate Halves(l: Layout, s: seq<Dirent>, base: nat, a: nat, b: nat, end: nat, addr: nat) {
    && base <= a <= b <= end <= |s| && IsKeyAddress(l, addr)
    && (forall i :: base <= i < a ==> !TestBit(l, s[i], addr))
    && (forall i :: b <= i < end ==> TestBit(l, s[i], addr))
  }

  lemma HalvesStart(l: Layout, s: seq<Dirent>, base: nat, end: nat, addr: nat)
    requires base <= end <= |s| && IsKeyAddress(l, addr)
    ensures Halves(l, s, base, base, end, end, addr)
  {
  }

  /** Each turn of the loop takes one more entry, or exchanges two. */
  lemma HalvesNext(l: Layout, s: seq<Dirent>, base: nat, a: nat, b: nat, end: nat, addr: nat)
    requires Halves(l, s, base, a, b, end, addr) && a < b
    ensures !TestBit(l, s[a], addr) ==> Halves(l, s, base, a + 1, b, end, addr)
    ensures TestBit(l, s[b - 1], addr) ==> Halves(l, s, base, a, b - 1, end, addr)
    ensures TestBit(l, s[a], addr) && !TestBit(l, s[b - 1], addr) ==>
      a + 1 <= b - 1 && Halves(l, Swapped(s, a, b - 1), base, a + 1, b - 1, end, addr)
  {
    hide TestBit, IsKeyAddress;
  }

  lemma HalvesMeet(l: Layout, s: seq<Dirent>, base: nat, mid: nat, end: nat, addr: nat)
    requires Halves(l, s, base, mid, mid, end, addr)
    ensures Split(l, s, base, mid, end, addr)
  {
    hide TestBit, IsKeyAddress;
  }

  /** The asymmetric partition loop: clear bits to the front, set bits to the back. */
  method Partition(l: Layout, dents: array<Dirent>, base: nat, end: nat, addr: nat) returns (mid: nat)
    requires base < end <= dents.Length && IsKeyAddress(l, addr)
    modifies dents
    ensures base <= mid <= end
    ensures Permuted(old(dents[..]), dents[..], base, end)
    ensures Split(l, dents[..], base, mid, end, addr)
  {
    hide Permuted, TestBit, IsKeyAddress, Halves, Split, Swapped;
    var a, b := base, end;
    ghost var was, s := dents[..], dents[..];
    PermutedRefl(was, base, end);
    HalvesStart(l, was, base, end, addr);
    while b > a
      invariant base <= a <= b <= end && dents[..] == s
      invariant Permuted(was, s, base, end) && Halves(l, s, base, a, b, end, addr)
    {
      HalvesNext(l, s, base, a, b, end, addr);
      assert s[a] == dents[a] && s[b - 1] == dents[b - 1];
      if !TestBit(l, dents[a], addr) {
        a := a + 1;
      } else {
        b := b - 1;
        if !TestBit(l, dents[b], addr) {
          SwapPermuted(s, a, b, base, end);
          Swap(dents, a, b);
          PermutedTrans(was, s, Swapped(s, a, b), base, end);
          s := Swapped(s, a, b);
          a := a + 1;
        }
      }
    }
    HalvesMeet(l, s, base, a, end, addr);
    mid := a;
  }

  // ---------------------------------------------------------------- pending ranges

  /** A range still to be sorted, and the table index of the next bit to test in it. */
  datatype Range = Range(base: nat, end: nat, bit: nat)

  /** The entries of [lo, hi) agree on every table entry above index `bit`. */
  ghost predicate Agree(l: Layout, s: seq<Dirent>, posns: seq<nat>, lo: nat, hi: nat, bit: nat)
    requires lo <= hi <= |s|
  {
    forall i, j, q :: lo <= i < hi && lo <= j < hi && bit <= q < |posns| ==>
      KeyBit(l, s[i], posns[q]) == KeyBit(l, s[j], posns[q])
  }

  ghost predicate RangeOk(l: Layout, s: seq<Dirent>, posns: seq<nat>, r: Range) {
    && r.base <= r.end <= |s| && 1 <= r.bit <= |posns|
    && Cut(s, r.base) && Cut(s, r.end)
    && Agree(l, s, posns, r.base, r.end, r.bit)
  }

  /**
   * The stack invariant. From top (last) to bottom (first) the pending ranges tile the array from
   * `from` on, and their bit indices strictly decrease from bottom to top.
   */
  ghost predicate Pending(l: Layout, s: seq<Dirent>, posns: seq<nat>, rs: seq<Range>, from: nat) {
    && (if rs == [] then from == |s| else rs[|rs| - 1].base == from && rs[0].end == |s|)
    && (forall k :: 0 <= k < |rs| ==> RangeOk(l, s, posns, rs[k]))
    && (forall k :: 0 <= k < |rs| - 1 ==> rs[k].base == rs[k + 1].end && rs[k].bit > rs[k + 1].bit)
  }

  /** The termination measure: pending ranges weigh 2^bit. */
  ghost function Weight(rs: seq<Range>): nat {
    if rs == [] then 0 else Weight(rs[..|rs| - 1]) + Pow2(rs[|rs| - 1].bit)
  }

  /** The stack never holds more ranges than there are listed bits. */
  lemma {:induction false} PendingDepth(l: Layout, s: seq<Dirent>, posns: seq<nat>, rs: seq<Range>, from: nat)
    requires Pending(l, s, posns, rs, from) && rs != []
    ensures |rs| + rs[|rs| - 1].bit <= 1 + |posns|
    decreases |rs|
  {
    if |rs| > 1 {
      var below := rs[..|rs| - 1];
      PendingDepth(l, s, posns, below, below[|below| - 1].base);
    }
  }

  lemma {:induction false} PendingAllRightOf(l: Layout, s: seq<Dirent>, posns: seq<nat>, rs: seq<Range>, from: nat,
                                             k: nat)
    requires Pending(l, s, posns, rs, from) && k < |rs|
    ensures from <= rs[k].base
    decreases |rs| - k
  {
    if k < |rs| - 1 {
      PendingAllRightOf(l, s, posns, rs, from, k + 1);
    }
  }

  lemma AgreeOutside(l: Layout, s: seq<Dirent>, t: seq<Dirent>, posns: seq<nat>, r: Range, lo: nat, hi: nat)
    requires Permuted(s, t, lo, hi) && RangeOk(l, s, posns, r) && (hi <= r.base || r.end <= lo)
    ensures RangeOk(l, t, posns, r)
  {
    CutPermuted(s, t, lo, hi, r.base);
    CutPermuted(s, t, lo, hi, r.end);
    forall i | r.base <= i < r.end
      ensures t[i] == s[i]
    {
      PermutedOutside(s, t, lo, hi, i);
    }
  }

  /** Rearranging left of the pending ranges does not disturb them. */
  lemma PendingPermuted(l: Layout, s: seq<Dirent>, t: seq<Dirent>, posns: seq<nat>, rs: seq<Range>, from: nat, lo: nat)
    requires Pending(l, s, posns, rs, from) && Permuted(s, t, lo, from)
    ensures Pending(l, t, posns, rs, from)
  {
    forall k | 0 <= k < |rs|
      ensures RangeOk(l, t, posns, rs[k])
    {
      PendingAllRightOf(l, s, posns, rs, from, k);
      AgreeOutside(l, s, t, posns, rs[k], lo, from);
    }
  }

  lemma BitsCoverPermuted(l: Layout, s: seq<Dirent>, t: seq<Dirent>, scoreBits: nat, inodeBits: nat, lo: nat, hi: nat)
    requires BitsCover(l, s, scoreBits, inodeBits) && Permuted(s, t, lo, hi)
    ensures BitsCover(l, t, scoreBits, inodeBits)
  {
    forall i: nat | i < |t|
      ensures t[i] in s
    {
      if lo <= i < hi {
        var j := PermutedFrom(s, t, lo, hi, i);
      } else {
        PermutedOutside(s, t, lo, hi, i);
      }
    }
    forall i, j, k: nat | 0 <= i < |t| && 0 <= j < |t| && Bit(t[i].score, k) != Bit(t[j].score, k)
      ensures ScoreBitListed(scoreBits, k)
    {
      var i' :| 0 <= i' < |s| && t[i] == s[i'];
      var j' :| 0 <= j' < |s| && t[j] == s[j'];
      assert Bit(s[i'].score, k) != Bit(s[j'].score, k);
    }
  }

  ghost predicate Table(l: Layout, s: seq<Dirent>, scoreBits: nat, inodeBits: nat, posns: seq<nat>) {
    BitsCover(l, s, scoreBits, inodeBits) && ListsUpTo(l, scoreBits, inodeBits, posns, 8 * l.Width() + 8)
  }

  /** Agreement on the listed positions above `bit` is agreement on every position above. */
  lemma AgreeEverywhere(l: Layout, s: seq<Dirent>, scoreBits: nat, inodeBits: nat, posns: seq<nat>, lo: nat, hi: nat,
                        bit: nat, i: nat, j: nat, p: nat)
    requires Table(l, s, scoreBits, inodeBits, posns) && lo <= hi <= |s|
    requires Agree(l, s, posns, lo, hi, bit) && lo <= i < hi && lo <= j < hi
    requires bit == 0 || (bit <= |posns| && posns[bit - 1] < p)
    ensures KeyBit(l, s[i], p) == KeyBit(l, s[j], p)
  {
    if Listed(l, scoreBits, inodeBits, p) {
      assert p in posns;
      var q :| 0 <= q < |posns| && posns[q] == p;
      assert bit <= q;
    } else {
      UnlistedAgree(l, s, scoreBits, inodeBits, i, j, p);
    }
  }

  /** Partitioning a range on its next bit yields a cut, and two ranges for the bit below. */
  lemma PartitionCuts(l: Layout, s: seq<Dirent>, scoreBits: nat, inodeBits: nat, posns: seq<nat>, r: Range, mid: nat)
    requires Table(l, s, scoreBits, inodeBits, posns) && RangeOk(l, s, posns, r) && r.base <= mid <= r.end
    requires forall i :: r.base <= i < mid ==> !KeyBit(l, s[i], posns[r.bit - 1])
    requires forall i :: mid <= i < r.end ==> KeyBit(l, s[i], posns[r.bit - 1])
    ensures Cut(s, mid)
    ensures Agree(l, s, posns, r.base, mid, r.bit - 1) && Agree(l, s, posns, mid, r.end, r.bit - 1)
  {
    var p := posns[r.bit - 1];
    forall i, j | 0 <= i < mid <= j < |s|
      ensures Less(s[i], s[j])
    {
      if i < r.base {
      } else if r.end <= j {
      } else {
        forall q: nat | p < q
          ensures KeyBit(l, s[i], q) == KeyBit(l, s[j], q)
        {
          AgreeEverywhere(l, s, scoreBits, inodeBits, posns, r.base, r.end, r.bit, i, j, q);
        }
        forall k: nat | Bit(s[i].inode, k) || Bit(s[j].inode, k)
          ensures k < 8 * l.Width()
        {
          assert Bit(inodeBits, k);
        }
        TopKeyBitDecides(l, s[i], s[j], p);
      }
    }
  }

  /** A range that agrees on all listed bits has one key only. */
  lemma AgreeAllSame(l: Layout, s: seq<Dirent>, scoreBits: nat, inodeBits: nat, posns: seq<nat>, lo: nat, hi: nat)
    requires Table(l, s, scoreBits, inodeBits, posns) && lo <= hi <= |s| && Agree(l, s, posns, lo, hi, 0)
    ensures AllSame(s, lo, hi)
  {
    forall i, j | lo <= i < hi && lo <= j < hi
      ensures SameKey(s[i], s[j])
    {
      forall q: nat
        ensures KeyBit(l, s[i], q) == KeyBit(l, s[j], q)
      {
        AgreeEverywhere(l, s, scoreBits, inodeBits, posns, lo, hi, 0, i, j, q);
      }
      forall k: nat | Bit(s[i].inode, k) || Bit(s[j].inode, k)
        ensures k < 8 * l.Width()
      {
        assert Bit(inodeBits, k);
      }
      NoKeyBitDiffers(l, s[i], s[j]);
    }
  }

  // ---------------------------------------------------------------- the sort itself

  lemma PermutedPrefix<T>(s: seq<T>, t: seq<T>, lo: nat, hi: nat, n: nat)
    requires Permuted(s, t, lo, hi) && hi <= n <= |s|
    ensures Permuted(s[..n], t[..n], lo, hi)
  {
    assert s[..n][hi..] == s[hi..][..n - hi] == t[hi..][..n - hi] == t[..n][hi..];
    assert s[..n][..lo] == s[..lo] && t[..n][..lo] == t[..lo];
    assert s[..n][lo..hi] == s[lo..hi] && t[..n][lo..hi] == t[lo..hi];
  }

  lemma WeightPush(rs: seq<Range>, r: Range)
    ensures Weight(rs + [r]) == Weight(rs) + Pow2(r.bit)
  {
    assert (rs + [r])[..|rs|] == rs;
  }

  /** Between ranges: a segmented prefix up to `upto`, pending ranges from there on. */
  ghost predicate Outer(l: Layout, s: seq<Dirent>, scoreBits: nat, inodeBits: nat, posns: seq<nat>, rs: seq<Range>,
                        cuts: seq<nat>, upto: nat) {
    && Table(l, s, scoreBits, inodeBits, posns)
    && Pending(l, s, posns, rs, upto)
    && Segmented(s, cuts, upto)
  }

  /** While range `cur` is being split: a segmented prefix, then `cur`, then pending ranges. */
  ghost predicate Inner(l: Layout, s: seq<Dirent>, scoreBits: nat, inodeBits: nat, posns: seq<nat>, rs: seq<Range>,
                        cuts: seq<nat>, cur: Range) {
    && Table(l, s, scoreBits, inodeBits, posns)
    && RangeOk(l, s, posns, cur)
    && Pending(l, s, posns, rs, cur.end) && (rs != [] ==> rs[|rs| - 1].bit >= cur.bit)
    && Segmented(s, cuts, cur.base)
  }

  lemma PopRange(l: Layout, s: seq<Dirent>, scoreBits: nat, inodeBits: nat, posns: seq<nat>, rs: seq<Range>,
                 cuts: seq<nat>, upto: nat)
    requires Outer(l, s, scoreBits, inodeBits, posns, rs, cuts, upto) && rs != []
    ensures Inner(l, s, scoreBits, inodeBits, posns, rs[..|rs| - 1], cuts, rs[|rs| - 1])
  {
  }

  lemma InnerDepth(l: Layout, s: seq<Dirent>, scoreBits: nat, inodeBits: nat, posns: seq<nat>, rs: seq<Range>,
                   cuts: seq<nat>, cur: Range)
    requires Inner(l, s, scoreBits, inodeBits, posns, rs, cuts, cur)
    ensures |rs| + cur.bit <= |posns| + 1 <= 8 * l.Width() + 9
    ensures cur.base <= cur.end <= |s| && 1 <= cur.bit <= |posns|
  {
    if rs != [] {
      PendingDepth(l, s, posns, rs, cur.end);
    }
    forall q | 0 <= q < |posns|
      ensures posns[q] < 8 * l.Width() + 8
    {
      assert posns[q] in posns;
    }
    IncreasingFits(posns, 8 * l.Width() + 8);
  }

  lemma SmallRange(l: Layout, s: seq<Dirent>, scoreBits: nat, inodeBits: nat, posns: seq<nat>, rs: seq<Range>,
                   cuts: seq<nat>, cur: Range)
    returns (cuts': seq<nat>)
    requires Inner(l, s, scoreBits, inodeBits, posns, rs, cuts, cur) && cur.end - cur.base < SORT_CUTOFF
    ensures Outer(l, s, scoreBits, inodeBits, posns, rs, cuts', cur.end)
  {
    cuts' := SegmentedExtend(s, cuts, cur.base, cur.end);
  }

  lemma RangePermuted(l: Layout, s: seq<Dirent>, t: seq<Dirent>, posns: seq<nat>, r: Range)
    requires RangeOk(l, s, posns, r) && Permuted(s, t, r.base, r.end)
    ensures RangeOk(l, t, posns, r)
  {
    CutPermuted(s, t, r.base, r.end, r.base);
    CutPermuted(s, t, r.base, r.end, r.end);
    forall i, j, q | r.base <= i < r.end && r.base <= j < r.end && r.bit <= q < |posns|
      ensures KeyBit(l, t[i], posns[q]) == KeyBit(l, t[j], posns[q])
    {
      var i' := PermutedFrom(s, t, r.base, r.end, i);
      var j' := PermutedFrom(s, t, r.base, r.end, j);
      assert KeyBit(l, s[i'], posns[q]) == KeyBit(l, s[j'], posns[q]);
    }
  }

  /** Rearranging the current range keeps the inner state. */
  lemma InnerPermuted(l: Layout, s: seq<Dirent>, t: seq<Dirent>, scoreBits: nat, inodeBits: nat, posns: seq<nat>,
                      rs: seq<Range>, cuts: seq<nat>, cur: Range)
    requires Inner(l, s, scoreBits, inodeBits, posns, rs, cuts, cur) && Permuted(s, t, cur.base, cur.end)
    ensures Inner(l, t, scoreBits, inodeBits, posns, rs, cuts, cur)
  {
    BitsCoverPermuted(l, s, t, scoreBits, inodeBits, cur.base, cur.end);
    PendingPermuted(l, s, t, posns, rs, cur.end, cur.base);
    forall k | 0 <= k < |cuts|
      ensures cuts[k] <= cur.base
    {
      CutsIncrease(cuts, k, |cuts| - 1);
    }
    SegmentedPermuted(s, t, cur.base, cur.end, cuts, cur.base);
    RangePermuted(l, s, t, posns, cur);
  }

  /** What one partition step establishes: a cut, and agreement on one more bit. */
  lemma SplitCuts(l: Layout, s: seq<Dirent>, scoreBits: nat, inodeBits: nat, posns: seq<nat>, bits: seq<nat>,
                  cur: Range, mid: nat)
    requires l.Valid() && TableHolds(l, bits, posns) && Table(l, s, scoreBits, inodeBits, posns) &&
      RangeOk(l, s, posns, cur)
    requires Split(l, s, cur.base, mid, cur.end, bits[cur.bit])
    ensures Cut(s, mid)
    ensures Agree(l, s, posns, cur.base, mid, cur.bit - 1) && Agree(l, s, posns, mid, cur.end, cur.bit - 1)
  {
    forall i | cur.base <= i < cur.end
      ensures TestBit(l, s[i], bits[cur.bit]) == KeyBit(l, s[i], posns[cur.bit - 1])
    {
      AddressTestsKeyBit(l, s[i], posns[cur.bit - 1]);
    }
    PartitionCuts(l, s, scoreBits, inodeBits, posns, cur, mid);
  }

  /** After the last listed bit a partitioned range is two finished segments. */
  lemma LastBitStep(l: Layout, s: seq<Dirent>, scoreBits: nat, inodeBits: nat, posns: seq<nat>, bits: seq<nat>,
                    rs: seq<Range>, cuts: seq<nat>, cur: Range, mid: nat)
    returns (cuts': seq<nat>)
    requires l.Valid() && TableHolds(l, bits, posns) && Inner(l, s, scoreBits, inodeBits, posns, rs, cuts, cur)
    requires cur.bit == 1 && Split(l, s, cur.base, mid, cur.end, bits[cur.bit])
    ensures Outer(l, s, scoreBits, inodeBits, posns, rs, cuts', cur.end)
  {
    SplitCuts(l, s, scoreBits, inodeBits, posns, bits, cur, mid);
    AgreeAllSame(l, s, scoreBits, inodeBits, posns, cur.base, mid);
    AgreeAllSame(l, s, scoreBits, inodeBits, posns, mid, cur.end);
    cuts' := SegmentedExtend(s, cuts, cur.base, mid);
    cuts' := SegmentedExtend(s, cuts', mid, cur.end);
  }

  /** Before that the upper part is pushed and the lower part goes on with the next bit. */
  lemma NextBitStep(l: Layout, s: seq<Dirent>, scoreBits: nat, inodeBits: nat, posns: seq<nat>, bits: seq<nat>,
                    rs: seq<Range>, cuts: seq<nat>, cur: Range, mid: nat)
    requires l.Valid() && TableHolds(l, bits, posns) && Inner(l, s, scoreBits, inodeBits, posns, rs, cuts, cur)
    requires cur.bit > 1 && Split(l, s, cur.base, mid, cur.end, bits[cur.bit])
    ensures cur.base <= mid
    ensures Inner(l, s, scoreBits, inodeBits, posns, rs + [Range(mid, cur.end, cur.bit - 1)], cuts,
      Range(cur.base, mid, cur.bit - 1))
  {
    SplitCuts(l, s, scoreBits, inodeBits, posns, bits, cur, mid);
  }

  lemma TableEntry(l: Layout, bits: seq<nat>, posns: seq<nat>, bit: nat)
    requires l.Valid() && TableHolds(l, bits, posns) && 1 <= bit <= |posns|
    ensures bit < |bits| && IsKeyAddress(l, bits[bit])
    ensures bits[bit - 1] == 0 <==> bit == 1
  {
    AddressTestsKeyBit(l, Dirent(0, 0, 0, 0, 0), posns[bit - 1]);
    if bit > 1 {
      AddressTestsKeyBit(l, Dirent(0, 0, 0, 0, 0), posns[bit - 2]);
    }
  }

  /** The three stack arrays hold the pending ranges. */
  ghost predicate Stacked(rs: seq<Range>, bases: seq<nat>, ends: seq<nat>, bits: seq<nat>) {
    && |rs| <= |bases| == |ends| == |bits|
    && forall k :: 0 <= k < |rs| ==> rs[k] == Range(bases[k], ends[k], bits[k])
  }

  /** Put one more range on the stack. */
  method PushRange(baseStk: array<nat>, endStk: array<nat>, bitStk: array<nat>, stkIdx: nat, a: nat, end: nat,
                   bit: nat, ghost rs: seq<Range>)
    returns (stkIdx': nat)
    requires baseStk != endStk && baseStk != bitStk && endStk != bitStk
    requires |rs| == stkIdx < baseStk.Length && Stacked(rs, baseStk[..], endStk[..], bitStk[..])
    modifies baseStk, endStk, bitStk
    ensures stkIdx' == stkIdx + 1
    ensures Stacked(rs + [Range(a, end, bit)], baseStk[..], endStk[..], bitStk[..])
  {
    baseStk[stkIdx], endStk[stkIdx], bitStk[stkIdx] := a, end, bit;
    stkIdx' := stkIdx + 1;
  }

  lemma StackTop(rs: seq<Range>, bases: seq<nat>, ends: seq<nat>, bits: seq<nat>, top: nat)
    requires Stacked(rs, bases, ends, bits) && |rs| == top + 1
    ensures top < |bases| && top < |ends| && top < |bits| && rs[top] == Range(bases[top], ends[top], bits[top])
    ensures Stacked(rs[..top], bases, ends, bits)
  {
  }

  /** The inner loop: split the range just popped until it is finished, pushing the upper parts. */
  method SplitRange(l: Layout, dents: array<Dirent>, size: nat, bits: array<nat>, baseStk: array<nat>,
                    endStk: array<nat>, bitStk: array<nat>,
                    stkIdx: nat, ghost scoreBits: nat, ghost inodeBits: nat, ghost posns: seq<nat>,
                    ghost rs: seq<Range>, ghost cuts: seq<nat>)
    returns (stkIdx': nat, ghost rs': seq<Range>, ghost cuts': seq<nat>, ghost upto: nat)
    requires l.Valid() && size <= dents.Length && TableHolds(l, bits[..], posns)
    requires baseStk != endStk && baseStk != bitStk && endStk != bitStk && bits !in {baseStk, endStk, bitStk}
    requires baseStk.Length == endStk.Length == bitStk.Length == 9 + 8 * l.Width()
    requires |rs| == stkIdx + 1 && Stacked(rs, baseStk[..], endStk[..], bitStk[..])
    requires Inner(l, dents[..size], scoreBits, inodeBits, posns, rs[..stkIdx], cuts, rs[stkIdx])
    modifies dents, baseStk, endStk, bitStk
    ensures Permuted(old(dents[..]), dents[..], 0, size)
    ensures |rs'| == stkIdx' && Stacked(rs', baseStk[..], endStk[..], bitStk[..])
    ensures Outer(l, dents[..size], scoreBits, inodeBits, posns, rs', cuts', upto)
    ensures Weight(rs') < Weight(rs)
  {
    hide Inner, Outer, Weight, Permuted, TableHolds, IsKeyAddress, Split, Stacked;
    StackTop(rs, baseStk[..], endStk[..], bitStk[..], stkIdx);
    var base: nat, end: nat, bit: nat := baseStk[stkIdx], endStk[stkIdx], bitStk[stkIdx];
    stkIdx', rs', cuts' := stkIdx, rs[..stkIdx], cuts;
    ghost var was, table := dents[..], bits[..];
    ghost var all, s := was, was[..size];
    PermutedRefl(all, 0, size);
    WeightPush(rs[..stkIdx], rs[stkIdx]);
    assert rs == rs[..stkIdx] + [rs[stkIdx]];
    while true
      invariant dents[..] == all && all[..size] == s && bits[..] == table
      invariant Permuted(was, all, 0, size)
      invariant |rs'| == stkIdx' && Stacked(rs', baseStk[..], endStk[..], bitStk[..])
      invariant Inner(l, s, scoreBits, inodeBits, posns, rs', cuts', Range(base, end, bit))
      invariant Weight(rs') + Pow2(bit) <= Weight(rs)
      decreases bit
    {
      ghost var cur := Range(base, end, bit);
      InnerDepth(l, s, scoreBits, inodeBits, posns, rs', cuts', cur);
      if end - base < SORT_CUTOFF {
        cuts' := SmallRange(l, s, scoreBits, inodeBits, posns, rs', cuts', cur);
        break;
      }
      TableEntry(l, table, posns, bit);
      var a := Partition(l, dents, base, end, bits[bit]);
      PermutedPrefix(all, dents[..], base, end, size);
      PermutedWiden(all, dents[..], base, end, 0, size);
      PermutedTrans(was, all, dents[..], 0, size);
      InnerPermuted(l, s, dents[..][..size], scoreBits, inodeBits, posns, rs', cuts', cur);
      all := dents[..];
      s := all[..size];
      SplitPrefix(l, all, base, a, end, table[bit], size);
      bit := bit - 1;
      if bits[bit] == 0 {
        cuts' := LastBitStep(l, s, scoreBits, inodeBits, posns, table, rs', cuts', cur, a);
        break;
      }
      NextBitStep(l, s, scoreBits, inodeBits, posns, table, rs', cuts', cur, a);
      stkIdx' := PushRange(baseStk, endStk, bitStk, stkIdx', a, end, bit, rs');
      WeightPush(rs', Range(a, end, bit));
      rs' := rs' + [Range(a, end, bit)];
      end := a;
    }
    upto := end;
    assert dents[..size] == s;
    assert Weight(rs') < Weight(rs);
  }

  /** One range holding everything, to be tested on the highest bit of the table. */
  lemma Begin(l: Layout, s: seq<Dirent>, scoreBits: nat, inodeBits: nat, posns: seq<nat>, bit: nat)
    requires Table(l, s, scoreBits, inodeBits, posns) && posns != [] && bit == |posns|
    ensures Outer(l, s, scoreBits, inodeBits, posns, [Range(0, |s|, bit)], [0], 0)
  {
  }

  lemma Finished(l: Layout, s: seq<Dirent>, scoreBits: nat, inodeBits: nat, posns: seq<nat>, cuts: seq<nat>, upto: nat)
    requires Outer(l, s, scoreBits, inodeBits, posns, [], cuts, upto)
    ensures Segmented(s, cuts, |s|)
  {
  }

  /** eio_dent_radix_sort. */
  method RadixSort(l: Layout, dents: array<Dirent>, size: nat, scoreBits: nat, inodeBits: nat)
    returns (ghost cuts: seq<nat>)
    requires l.Valid() && size <= dents.Length && BitsCover(l, dents[..size], scoreBits, inodeBits)
    requires size > SORT_FAST ==> exists p: nat :: Listed(l, scoreBits, inodeBits, p)
    modifies dents
    ensures Permuted(old(dents[..]), dents[..], 0, size)
    ensures size <= SORT_FAST ==> dents[..] == old(dents[..])
    ensures size > SORT_FAST ==> Segmented(dents[..size], cuts, size)
  {
    hide Inner, Outer, Weight, Permuted, Pending, Segmented;
    cuts := [0];
    PermutedRefl(dents[..], 0, size);
    if size <= SORT_FAST {
      return;
    }
    ghost var was := dents[..];
    var bits, bit, posns := BuildBitTable(l, scoreBits, inodeBits);
    assert dents[..] == was;
    assert posns != [] by {
      var p: nat :| Listed(l, scoreBits, inodeBits, p);
      assert p in posns;
    }
    var baseStk := new nat[9 + 8 * l.Width()];
    var endStk := new nat[9 + 8 * l.Width()];
    var bitStk := new nat[9 + 8 * l.Width()];
    var stkIdx := 0;
    baseStk[0], endStk[0], bitStk[0] := 0, size, bit - 1;
    ghost var rs, upto := [Range(0, size, bit - 1)], 0;
    Begin(l, dents[..size], scoreBits, inodeBits, posns, bit - 1);
    assert Permuted(was, dents[..], 0, size) && cuts == [0];
    while true
      invariant Permuted(was, dents[..], 0, size)
      invariant TableHolds(l, bits[..], posns)
      invariant |rs| == stkIdx + 1 && Stacked(rs, baseStk[..], endStk[..], bitStk[..])
      invariant Outer(l, dents[..size], scoreBits, inodeBits, posns, rs, cuts, upto)
      decreases Weight(rs)
    {
      ghost var before := dents[..];
      PopRange(l, dents[..size], scoreBits, inodeBits, posns, rs, cuts, upto);
      stkIdx, rs, cuts, upto :=
        SplitRange(l, dents, size, bits, baseStk, endStk, bitStk, stkIdx, scoreBits, inodeBits, posns, rs, cuts);
      PermutedTrans(was, before, dents[..], 0, size);
      if stkIdx == 0 {
        Finished(l, dents[..size], scoreBits, inodeBits, posns, cuts, upto);
        break;
      }
      stkIdx := stkIdx - 1;
    }
  }
}
