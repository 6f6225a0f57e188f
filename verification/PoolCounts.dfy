/** Counting workers and queue entries. */
module PoolCounts {
  import opened PoolState
  import opened RequestQueue

  // the classes of workers that the pool's laws count
  datatype Kind =
    | Blocked                // in one of the two waits
    | Up                     // about to shift
    | Awake                  // unblocked and not yet past the wait
    | Idle                   // inside the wait, in any way
    | Listed                 // in the worker list
    | Alive                  // not yet past the worker's last decision
    | Working                // holding a request
    | Holding(item: Item)    // holding this item
    | Departing              // about to decrement `started`
    | OnTheWayOut            // uncounted in `started` but still listed, without a token
    | Late                   // after the timed wait ended by itself

  predicate Is(k: Kind, w: Worker) {
    match k
    case Blocked => IsBlocked(w)
    case Up => w.Ready? || w.Woken?
    case Awake => w.Ready? || w.Woken? || w.TimedOut?
    case Idle => IsBlocked(w) || w.Woken? || w.TimedOut?
    case Listed => !w.Gone?
    case Alive => !w.Gone? && !w.Quitting?
    case Working => w.Got? && w.e.item.Req?
    case Holding(item) => w.Got? && w.e.item == item
    case Departing => w.Leaving?
    case OnTheWayOut => w.Quitting?
    case Late => w.TimedOut? || w.Leaving? || w.Quitting?
  }

  function Bool(b: bool): nat { if b then 1 else 0 }

  ghost function Count(ws: seq<Worker>, k: Kind): (n: nat)
    ensures n <= |ws|
  {
    if ws == [] then 0 else Count(ws[..|ws| - 1], k) + Bool(Is(k, ws[|ws| - 1]))
  }

  lemma CountAppend(ws: seq<Worker>, w: Worker, k: Kind)
    ensures Count(ws + [w], k) == Count(ws, k) + Bool(Is(k, w))
  {
    assert (ws + [w])[..|ws|] == ws;
  }

  lemma {:induction false} CountUpdate(ws: seq<Worker>, i: nat, w: Worker, k: Kind)
    requires i < |ws|
    ensures Count(ws[i := w], k) == Count(ws, k) - Bool(Is(k, ws[i])) + Bool(Is(k, w))
    decreases |ws|
  {
    hide Is;
    var n := |ws| - 1;
    if i == n {
      assert ws[i := w][..n] == ws[..n];
    } else {
      CountUpdate(ws[..n], i, w, k);
      assert ws[i := w][..n] == ws[..n][i := w];
    }
  }

  lemma {:induction false} CountSome(ws: seq<Worker>, i: nat, k: Kind)
    requires i < |ws| && Is(k, ws[i])
    ensures Count(ws, k) > 0
    decreases |ws|
  {
    if i < |ws| - 1 {
      CountSome(ws[..|ws| - 1], i, k);
    }
  }

  lemma {:induction false} CountWitness(ws: seq<Worker>, k: Kind) returns (i: nat)
    requires Count(ws, k) > 0
    ensures i < |ws| && Is(k, ws[i])
    decreases |ws|
  {
    hide Is;
    i := |ws| - 1;
    if !Is(k, ws[i]) {
      i := CountWitness(ws[..|ws| - 1], k);
    }
  }

  lemma {:induction false} CountSame(ws: seq<Worker>, ws': seq<Worker>, k: Kind)
    requires |ws| == |ws'| && forall i :: 0 <= i < |ws| ==> Is(k, ws[i]) == Is(k, ws'[i])
    ensures Count(ws, k) == Count(ws', k)
    decreases |ws|
  {
    hide Is;
    if ws != [] {
      CountSame(ws[..|ws| - 1], ws'[..|ws| - 1], k);
    }
  }

  /** A kind that is part of another is not the more frequent one. */
  lemma {:induction false} CountLe(ws: seq<Worker>, k: Kind, l: Kind)
    requires forall i :: 0 <= i < |ws| ==> Is(k, ws[i]) ==> Is(l, ws[i])
    ensures Count(ws, k) <= Count(ws, l)
    decreases |ws|
  {
    hide Is;
    if ws != [] {
      CountLe(ws[..|ws| - 1], k, l);
    }
  }

  /** A listed worker waits, is about to shift, holds something, or is past its timeout. */
  lemma {:induction false} ListedParts(ws: seq<Worker>)
    ensures Count(ws, Listed) ==
      Count(ws, Blocked) + Count(ws, Up) + Count(ws, Working) + Count(ws, Holding(Token)) + Count(ws, Late)
    decreases |ws|
  {
    if ws != [] {
      ListedParts(ws[..|ws| - 1]);
    }
  }

  lemma {:induction false} CountNone(ws: seq<Worker>, k: Kind)
    requires forall i :: 0 <= i < |ws| ==> !Is(k, ws[i])
    ensures Count(ws, k) == 0
    decreases |ws|
  {
    hide Is;
    if ws != [] {
      CountNone(ws[..|ws| - 1], k);
    }
  }

  /** A signal moves workers from blocked to awake, at least one if any was blocked. */
  lemma {:induction false} WakeCounts(ws: seq<Worker>, woken: set<nat>)
    requires forall i :: i in woken && i < |ws| ==> IsBlocked(ws[i])
    ensures Count(Wake(ws, woken), Blocked) <= Count(ws, Blocked)
    ensures Count(Wake(ws, woken), Awake) == Count(ws, Awake) + Count(ws, Blocked) - Count(Wake(ws, woken), Blocked)
    ensures (exists i :: i in woken && i < |ws|) ==> Count(Wake(ws, woken), Blocked) < Count(ws, Blocked)
    decreases |ws|
  {
    if ws != [] {
      var front := ws[..|ws| - 1];
      WakeCounts(front, woken);
      assert Wake(ws, woken)[..|ws| - 1] == Wake(front, woken);
    }
  }

  lemma SignalCounts(ws: seq<Worker>, woken: set<nat>)
    requires SignalOk(ws, woken)
    ensures Count(Wake(ws, woken), Awake) + Count(Wake(ws, woken), Blocked) == Count(ws, Awake) + Count(ws, Blocked)
    ensures Count(Wake(ws, woken), Blocked) == 0 || Count(Wake(ws, woken), Awake) > Count(ws, Awake)
    ensures forall k: Kind :: !k.Blocked? && !k.Up? && !k.Awake? ==>
      Count(Wake(ws, woken), k) == Count(ws, k)
  {
    WakeCounts(ws, woken);
    if woken == {} {
      CountNone(ws, Blocked);
    } else {
      var i :| i in woken;
    }
    forall k: Kind | !k.Blocked? && !k.Up? && !k.Awake?
      ensures Count(Wake(ws, woken), k) == Count(ws, k)
    {
      CountSame(ws, Wake(ws, woken), k);
    }
  }

  // ---------------------------------------------------------------- queue entries

  /** How often an item is queued. */
  ghost function Num<T>(q: seq<Entry<T>>, x: T): (n: nat) {
    multiset(Items(q))[x]
  }

  lemma NumPush<T>(q: seq<Entry<T>>, e: Entry<T>, x: T)
    ensures Num(q + [e], x) == Num(q, x) + Bool(e.item == x)
  {
    hide Items;
    ItemsConcat(q, [e]);
    ItemsOne(e);
  }

  lemma NumRemove<T>(q: seq<Entry<T>>, k: nat, x: T)
    requires k < |q|
    ensures Num(q, x) == Num(Remove(q, k), x) + Bool(q[k].item == x)
  {
    hide Items, Remove;
    RemoveItems(q, k);
  }

  lemma {:induction false} NumLe<T>(q: seq<Entry<T>>, x: T)
    ensures Num(q, x) <= |q|
    ensures Num(q, x) == |q| <==> forall i :: 0 <= i < |q| ==> q[i].item == x
    decreases |q|
  {
    if q != [] {
      NumLe(q[..|q| - 1], x);
      NumPush(q[..|q| - 1], q[|q| - 1], x);
      assert q == q[..|q| - 1] + [q[|q| - 1]];
    }
  }

  lemma {:induction false} NumOther<T>(q: seq<Entry<T>>, x: T, y: T)
    requires x != y
    ensures Num(q, x) + Num(q, y) <= |q|
    decreases |q|
  {
    if q != [] {
      NumOther(q[..|q| - 1], x, y);
      NumPush(q[..|q| - 1], q[|q| - 1], x);
      NumPush(q[..|q| - 1], q[|q| - 1], y);
      assert q == q[..|q| - 1] + [q[|q| - 1]];
    }
  }
}
