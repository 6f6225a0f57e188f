/**
 * etp_reqq: nine singly linked lists with head and tail pointers, which together behave as one
 * stable priority queue.
 */
module RequestQueue {
  import opened Requests

  // ---------------------------------------------------------------- the abstract priority queue

  datatype Entry<T> = Entry(item: T, pri: nat)

  /** The index of the oldest entry of the highest priority; entries are in order of arrival. */
  function BestIndex<T>(c: seq<Entry<T>>): (k: nat)
    requires c != []
    ensures k < |c|
    ensures forall j :: 0 <= j < |c| ==> c[j].pri <= c[k].pri
    ensures forall j :: 0 <= j < k ==> c[j].pri < c[k].pri
  {
    var front := c[..|c| - 1];
    if front == [] then 0
    else
      var k := BestIndex(front);
      assert forall j :: 0 <= j < |front| ==> front[j] == c[j];
      if c[|c| - 1].pri > c[k].pri then |c| - 1 else k
  }

  function Remove<T>(c: seq<Entry<T>>, k: nat): (r: seq<Entry<T>>)
    requires k < |c|
    ensures |r| == |c| - 1
  {
    c[..k] + c[k + 1..]
  }

  /** The entries of one priority, oldest first. */
  ghost function Lane<T>(c: seq<Entry<T>>, p: nat): seq<T> {
    if c == [] then [] else Lane(c[..|c| - 1], p) + (if c[|c| - 1].pri == p then [c[|c| - 1].item] else [])
  }

  lemma {:induction false} LaneConcat<T>(c: seq<Entry<T>>, d: seq<Entry<T>>, p: nat)
    ensures Lane(c + d, p) == Lane(c, p) + Lane(d, p)
    decreases |d|
  {
    if d == [] {
      assert c + d == c;
    } else {
      LaneConcat(c, d[..|d| - 1], p);
      assert (c + d)[..|c + d| - 1] == c + d[..|d| - 1];
    }
  }

  lemma LanePush<T>(c: seq<Entry<T>>, e: Entry<T>, p: nat)
    ensures Lane(c + [e], p) == Lane(c, p) + (if e.pri == p then [e.item] else [])
  {
    assert (c + [e])[..|c|] == c;
  }

  lemma {:induction false} LaneEmpty<T>(c: seq<Entry<T>>, p: nat)
    ensures Lane(c, p) == [] <==> forall j :: 0 <= j < |c| ==> c[j].pri != p
    decreases |c|
  {
    if c != [] {
      LaneEmpty(c[..|c| - 1], p);
      assert forall j :: 0 <= j < |c| - 1 ==> c[..|c| - 1][j] == c[j];
    }
  }

  /** Removing the best entry takes the head off its lane and leaves the other lanes alone. */
  lemma LaneShift<T>(c: seq<Entry<T>>, p: nat)
    requires c != []
    ensures var k := BestIndex(c); var r := Remove(c, k);
            if p == c[k].pri then Lane(c, p) == [c[k].item] + Lane(r, p) else Lane(r, p) == Lane(c, p)
  {
    hide Lane, BestIndex;
    var k := BestIndex(c);
    var older, e, newer := c[..k], c[k], c[k + 1..];
    SplitAt(c, k);
    LaneConcat(older, [e] + newer, p);
    LaneConcat([e], newer, p);
    LaneConcat(older, newer, p);
    LaneOne(e, p);
    LaneEmpty(older, e.pri);
  }

  lemma SplitAt<T>(s: seq<T>, k: nat)
    requires k < |s|
    ensures s == s[..k] + ([s[k]] + s[k + 1..])
  {
  }

  lemma LaneOne<T>(e: Entry<T>, p: nat)
    ensures Lane([e], p) == if e.pri == p then [e.item] else []
  {
    assert [e][..0] == [];
  }

  /** The best entry heads the highest lane that is not empty. */
  lemma BestLane<T>(c: seq<Entry<T>>, p: nat)
    requires Lane(c, p) != []
    requires forall q: nat :: p < q ==> Lane(c, q) == []
    ensures c != [] && c[BestIndex(c)] == Entry(Lane(c, p)[0], p)
  {
    LaneEmpty(c, p);
    var k := BestIndex(c);
    LaneEmpty(c, c[k].pri);
    assert c[k].pri == p by {
      assert Lane(c, c[k].pri) != [];
    }
    LaneShift(c, p);
  }

  lemma {:induction false} LaneMember<T>(c: seq<Entry<T>>, p: nat, x: T)
    ensures x in Lane(c, p) <==> Entry(x, p) in c
    decreases |c|
  {
    if c != [] {
      LaneMember(c[..|c| - 1], p, x);
      assert c == c[..|c| - 1] + [c[|c| - 1]];
    }
  }

  ghost predicate Distinct<T>(c: seq<Entry<T>>) {
    forall i, j :: 0 <= i < j < |c| ==> c[i].item != c[j].item
  }

  /** Queued once, an item is in one lane only, and there only once. */
  lemma {:induction false} LanesDistinct<T>(c: seq<Entry<T>>, p: nat)
    requires Distinct(c)
    ensures forall i, j :: 0 <= i < j < |Lane(c, p)| ==> Lane(c, p)[i] != Lane(c, p)[j]
    ensures forall x, q: nat :: x in Lane(c, p) && x in Lane(c, q) ==> p == q
    decreases |c|
  {
    forall x, q: nat | x in Lane(c, p) && x in Lane(c, q)
      ensures p == q
    {
      LaneMember(c, p, x);
      LaneMember(c, q, x);
    }
    if c != [] {
      var front, e := c[..|c| - 1], c[|c| - 1];
      LanesDistinct(front, p);
      LaneMember(front, p, e.item);
    }
  }

  /** Scanning the lanes downwards, the first one that is not empty holds the best entry. */
  lemma ShiftsBest<T>(c: seq<Entry<T>>, pri: nat)
    requires forall i :: 0 <= i < |c| ==> c[i].pri < NUM_PRI
    requires Lane(c, pri) != [] && forall q: nat :: pri < q < NUM_PRI ==> Lane(c, q) == []
    ensures c != [] && c[BestIndex(c)] == Entry(Lane(c, pri)[0], pri)
    ensures forall p: nat :: Lane(Remove(c, BestIndex(c)), p) == if p == pri then Lane(c, p)[1..] else Lane(c, p)
  {
    forall q: nat | pri < q
      ensures Lane(c, q) == []
    {
      LaneEmpty(c, q);
    }
    BestLane(c, pri);
    forall p: nat
      ensures Lane(Remove(c, BestIndex(c)), p) == if p == pri then Lane(c, p)[1..] else Lane(c, p)
    {
      LaneShift(c, p);
    }
  }

  lemma NoLanes<T>(c: seq<Entry<T>>)
    requires forall i :: 0 <= i < |c| ==> c[i].pri < NUM_PRI
    requires forall q: nat :: q < NUM_PRI ==> Lane(c, q) == []
    ensures c == []
  {
    if c != [] {
      LaneEmpty(c, c[0].pri);
    }
  }

  lemma PushDistinct<T>(c: seq<Entry<T>>, e: Entry<T>)
    requires Distinct(c) && forall f :: f in c ==> f.item != e.item
    ensures Distinct(c + [e])
  {
  }

  lemma LaneDistinct<T>(c: seq<Entry<T>>, p: nat, q: nat)
    requires Distinct(c)
    ensures forall i, j :: 0 <= i < j < |Lane(c, p)| ==> Lane(c, p)[i] != Lane(c, p)[j]
    ensures p != q ==> forall i, j :: 0 <= i < |Lane(c, p)| && 0 <= j < |Lane(c, q)| ==> Lane(c, p)[i] != Lane(c, q)[j]
  {
    LanesDistinct(c, p);
    if p != q {
      forall i, j | 0 <= i < |Lane(c, p)| && 0 <= j < |Lane(c, q)|
        ensures Lane(c, p)[i] != Lane(c, q)[j]
      {
        assert Lane(c, p)[i] in Lane(c, p) && Lane(c, q)[j] in Lane(c, q);
      }
    }
  }

  lemma RemoveDistinct<T>(c: seq<Entry<T>>, k: nat)
    requires k < |c| && Distinct(c)
    ensures Distinct(Remove(c, k))
    ensures forall i :: 0 <= i < |Remove(c, k)| ==> Remove(c, k)[i] in c
  {
  }

  lemma LaneNodes(c: seq<Entry<Request>>, p: nat)
    ensures forall x :: x in Lane(c, p) ==> exists e :: e in c && e.item == x
  {
    forall x | x in Lane(c, p)
      ensures exists e :: e in c && e.item == x
    {
      LaneMember(c, p, x);
      assert Entry(x, p) in c && Entry(x, p).item == x;
    }
  }

  /** `list` is linked from `first` to `last`. */
  ghost predicate Linked(first: Request?, last: Request?, list: seq<Request>)
    reads list
  {
    if list == [] then first == null && last == null
    else
      && first == list[0] && last == list[|list| - 1]
      && (forall i :: 0 <= i < |list| - 1 ==> list[i].next == list[i + 1])
      && list[|list| - 1].next == null
  }

  ghost function Items<T>(c: seq<Entry<T>>): seq<T> {
    if c == [] then [] else Items(c[..|c| - 1]) + [c[|c| - 1].item]
  }

  lemma {:induction false} ItemsConcat<T>(c: seq<Entry<T>>, d: seq<Entry<T>>)
    ensures Items(c + d) == Items(c) + Items(d)
    decreases |d|
  {
    if d == [] {
      assert c + d == c;
    } else {
      ItemsConcat(c, d[..|d| - 1]);
      assert (c + d)[..|c + d| - 1] == c + d[..|d| - 1];
    }
  }

  lemma RemoveItems<T>(c: seq<Entry<T>>, k: nat)
    requires k < |c|
    ensures multiset(Items(c)) == multiset(Items(Remove(c, k))) + multiset{c[k].item}
  {
    hide Items;
    var older, e, newer := c[..k], c[k], c[k + 1..];
    SplitAt(c, k);
    ItemsConcat(older, [e] + newer);
    ItemsConcat([e], newer);
    ItemsConcat(older, newer);
    ItemsOne(e);
    MultisetMiddle(Items(older), e.item, Items(newer));
  }

  lemma MultisetMiddle<T>(s: seq<T>, x: T, t: seq<T>)
    ensures multiset(s + ([x] + t)) == multiset(s + t) + multiset{x}
  {
  }

  lemma NoItems<T>()
    ensures Items<T>([]) == []
  {
  }

  lemma ItemsOne<T>(e: Entry<T>)
    ensures Items([e]) == [e.item]
  {
    assert [e][..0] == [];
  }

  // ---------------------------------------------------------------- the linked lists

  class Queue {
    const qs: array<Request?>
    const qe: array<Request?>
    var size: int
    ghost var contents: seq<Entry<Request>>

    ghost function Nodes(): set<Request>
      reads this`contents
    {
      set e | e in contents :: e.item
    }

    ghost predicate Valid()
      reads this, qs, qe, Nodes()
    {
      && qs != qe && qs.Length == qe.Length == NUM_PRI
      && size == |contents|
      && (forall i :: 0 <= i < |contents| ==> contents[i].pri < NUM_PRI)
      && Distinct(contents)
      && (forall p: nat :: p < NUM_PRI ==> LaneLinked(p))
    }

    ghost predicate LaneLinked(p: nat)
      requires p < qs.Length && p < qe.Length
      reads this`contents, qs, qe, Nodes()
    {
      && (forall x :: x in Lane(contents, p) ==> x in Nodes())
      && Linked(qs[p], qe[p], Lane(contents, p))
    }

    // a zero-initialised static etp_reqq
    constructor ()
      ensures Valid() && contents == [] && fresh(qs) && fresh(qe)
    {
      qs := new Request?[NUM_PRI](i => null);
      qe := new Request?[NUM_PRI](i => null);
      size := 0;
      contents := [];
    }

    /** reqq_push: append to the list of the request's priority; the old size is returned. */
    method Push(req: Request) returns (before: int)
      requires Valid() && 0 <= req.pri < NUM_PRI && req !in Nodes()
      modifies this`size, this`contents, qs, qe, req`next, Nodes()`next
      ensures Valid() && contents == old(contents) + [Entry(req, req.pri)]
      ensures before == |old(contents)|
    {
      hide Lane, Distinct;
      var pri := req.pri;
      ghost var was, e := contents, Entry(req, pri as nat);
      LaneLasts(pri);
      ghost var tail := qe[pri];
      assert tail != null ==> tail == Lane(was, pri)[|Lane(was, pri)| - 1];
      req.next := null;
      if qe[pri] != null {
        qe[pri].next := req;
        qe[pri] := req;
      } else {
        qs[pri] := req;
        qe[pri] := req;
      }
      before := size;
      size := size + 1;
      contents := contents + [e];
      PushDistinct(was, e);
      forall p: nat | p < NUM_PRI
        ensures LaneLinked(p)
      {
        assert old(LaneLinked(p));
        LanePush(was, e, p);
        LaneDistinct(was, p, pri);
        LaneNodes(was, p);
        LaneNodes(contents, p);
        ghost var list := Lane(was, p);
        forall k | 0 <= k < |list| && !(p == pri && k == |list| - 1)
          ensures list[k] in old(Nodes()) && list[k] != req && list[k] != tail
        {
          assert list[k] in Lane(was, p);
          assert list[k] in old(Nodes());
        }
      }
    }

    /** reqq_shift: the oldest request of the highest priority, or null; the abort is unreachable. */
    method Shift() returns (r: Request?)
      requires Valid()
      modifies this`size, this`contents, qs, qe
      ensures Valid()
      ensures old(contents) == [] ==> r == null && contents == []
      ensures old(contents) != [] ==>
        r == old(contents)[BestIndex(old(contents))].item && contents == Remove(old(contents), BestIndex(old(contents)))
    {
      hide Lane, Distinct, Remove, BestIndex;
      if size == 0 {
        return null;
      }
      ghost var was := contents;
      size := size - 1;
      forall p: nat | p < NUM_PRI
        ensures LaneLinked(p)
      {
        assert old(LaneLinked(p));
      }
      var pri := NUM_PRI;
      while pri != 0
        invariant 0 <= pri <= NUM_PRI
        invariant size == |was| - 1 && contents == was
        invariant forall p: nat :: p < NUM_PRI ==> LaneLinked(p)
        invariant forall q: nat :: pri <= q < NUM_PRI ==> Lane(was, q) == []
      {
        pri := pri - 1;
        LaneLasts(pri);
        var req := qs[pri];
        if req != null {
          ShiftsBest(was, pri);
          label Found:
          assert LaneLinked(pri);
          ghost var list := Lane(was, pri);
          assert req == list[0] && req.next == if |list| > 1 then list[1] else null;
          contents := Remove(was, BestIndex(was));
          qs[pri] := req.next;
          if qs[pri] == null {
            qe[pri] := null;
          }
          forall p: nat | p < NUM_PRI
            ensures LaneLinked(p)
          {
            assert old@Found(LaneLinked(p));
            LaneNodes(contents, p);
          }
          RemoveDistinct(was, BestIndex(was));
          return req;
        }
      }
      NoLanes(was);
      assert false;
    }

    lemma LaneLasts(p: nat)
      requires qs.Length == qe.Length == NUM_PRI && p < NUM_PRI && LaneLinked(p)
      ensures qs[p] == null <==> Lane(contents, p) == []
      ensures qe[p] == null <==> Lane(contents, p) == []
      ensures qe[p] != null ==> qe[p] in Nodes() && qe[p] in Lane(contents, p)
      ensures qs[p] != null ==> qs[p] == Lane(contents, p)[0] && qs[p] in Nodes()
    {
      assert LaneLinked(p);
    }
  }

  /** The drain loop of etp_atfork_child: every queued request is destroyed exactly once. */
  method Drain(q: Queue) returns (destroyed: seq<Request>)
    requires q.Valid()
    modifies q`size, q`contents, q.qs, q.qe
    ensures q.Valid() && q.contents == []
    ensures multiset(destroyed) == multiset(Items(old(q.contents)))
  {
    hide Items, Remove, BestIndex;
    destroyed := [];
    NoItems<Request>();
    var prv := q.Shift();
    ghost var was := old(q.contents);
    if was != [] {
      RemoveItems(was, BestIndex(was));
    }
    while prv != null
      invariant q.Valid()
      invariant prv != null ==>
        multiset(destroyed) + multiset{prv} + multiset(Items(q.contents)) == multiset(Items(was))
      invariant prv == null ==> q.contents == [] && multiset(destroyed) == multiset(Items(was))
      decreases if prv == null then 0 else 1 + |q.contents|
    {
      destroyed := destroyed + [prv];
      ghost var c := q.contents;
      prv := q.Shift();
      if c != [] {
        RemoveItems(c, BestIndex(c));
      }
    }
  }
}
