/** etp_atfork_child: the child of a fork drops all queued and running requests. */
module PoolFork {
  import opened PoolCounts
  import opened PoolLaws
  import opened PoolRuns
  import opened PoolState
  import opened RequestQueue

  /** In how many of the places that the child drains a request is. */
  ghost function Drained(s: State, x: Id): nat {
    Num(s.reqq, Req(x)) + Num(s.resq, x) + Count(s.ws, Holding(Req(x)))
  }

  /** The child's state once the requests in `gone` are destroyed. */
  function Child(s: State, gone: seq<Id>): State {
    s.(reqq := [], resq := [], ws := [], started := 0, idle := 0, nreqs := 0, nready := 0, npending := 0, spent := 0,
       destroyed := s.destroyed + multiset(gone))
  }

  method DrainRequests(queue: seq<Entry<Item>>) returns (gone: seq<Id>)
    ensures forall x :: multiset(gone)[x] == Num(queue, Req(x))
  {
    hide Items, Num, Remove, BestIndex;
    var q := queue;
    gone := [];
    while q != []
      invariant forall x :: multiset(gone)[x] + Num(q, Req(x)) == Num(queue, Req(x))
      decreases |q|
    {
      var k := BestIndex(q);
      var prv := q[k];
      OneShifted(q, k);
      q := Remove(q, k);
      if prv.item.Req? {
        gone := gone + [prv.item.id];
      }
    }
    NoEntries<Item>();
  }

  method DrainResults(queue: seq<Entry<Id>>) returns (gone: seq<Id>)
    ensures forall x :: multiset(gone)[x] == Num(queue, x)
  {
    hide Items, Num, Remove, BestIndex;
    var q := queue;
    gone := [];
    while q != []
      invariant forall x :: multiset(gone)[x] + Num(q, x) == Num(queue, x)
      decreases |q|
    {
      var k := BestIndex(q);
      var prv := q[k];
      OneShifted(q, k);
      q := Remove(q, k);
      gone := gone + [prv.item];
    }
    NoEntries<Id>();
  }

  lemma NoEntries<T>()
    ensures forall x :: Num<T>([], x) == 0
  {
  }

  /** The worker list starts with the newest worker; those that are gone are not in it. */
  method DrainWorkers(workers: seq<Worker>) returns (gone: seq<Id>)
    ensures forall x :: multiset(gone)[x] == Count(workers, Holding(Req(x)))
  {
    hide Count;
    var ws := workers;
    gone := [];
    while ws != []
      invariant forall x :: multiset(gone)[x] + Count(ws, Holding(Req(x))) == Count(workers, Holding(Req(x)))
      decreases |ws|
    {
      var wrk := ws[|ws| - 1];
      LastWorker(ws);
      ws := ws[..|ws| - 1];
      if wrk.Got? && wrk.e.item.Req? {
        gone := gone + [wrk.e.item.id];
      }
    }
    NoWorkers();
  }

  lemma LastWorker(ws: seq<Worker>)
    requires ws != []
    ensures forall x :: Count(ws, Holding(x)) == Count(ws[..|ws| - 1], Holding(x)) + Bool(Is(Holding(x), ws[|ws| - 1]))
  {
  }

  lemma NoWorkers()
    ensures forall k :: Count([], k) == 0
  {
  }

  /** etp_atfork_child. */
  method AtforkChild(s: State) returns (c: State, gone: seq<Id>)
    ensures forall x :: multiset(gone)[x] == Drained(s, x)
    ensures c == Child(s, gone)
  {
    hide Num, Items, Count;
    var queued := DrainRequests(s.reqq);
    var done := DrainResults(s.resq);
    var running := DrainWorkers(s.ws);
    gone := queued + done + running;
    c := Child(s, gone);
  }

  /**
   * Whenever user code forks, the child destroys every request that waited, ran or had its result
   * queued exactly once and no other, nothing is destroyed twice, and the counters are right again.
   */
  lemma ForkConserves(steps: seq<Step>, gone: seq<Id>)
    requires Legal(INIT, steps) && InUserCode(Execute(INIT, steps))
    requires forall x: Id :: multiset(gone)[x] == Drained(Execute(INIT, steps), x)
    ensures var c := Child(Execute(INIT, steps), gone);
            && Conserved(c) && Counters(c) && forall x: Id :: c.destroyed[x] <= 1
  {
    hide Legal, Execute, PipeLaw, Counters, Conserved, Drained;
    var s := Reached(steps);
    ChildPlaces(s, gone);
    ChildCounters(s, gone);
    forall x: Id
      ensures Child(s, gone).destroyed[x] <= 1
    {
      hide Places;
      AtMostOnce(Child(s, gone), x);
    }
  }

  lemma AtMostOnce(s: State, x: Id)
    requires Conserved(s)
    ensures s.destroyed[x] <= 1
  {
    hide Places;
    assert InOnePlace(s, x);
  }

  lemma ChildPlaces(s: State, gone: seq<Id>)
    requires Conserved(s) && forall x: Id :: multiset(gone)[x] == Drained(s, x)
    ensures Conserved(Child(s, gone))
  {
    hide Count, Num, Items;
    var c := Child(s, gone);
    forall x: Id
      ensures InOnePlace(c, x)
    {
      assert InOnePlace(s, x);
      NothingYet(Holding(Req(x)), Req(x), x);
      assert multiset(gone)[x] == Drained(s, x);
    }
  }

  lemma ChildCounters(s: State, gone: seq<Id>)
    requires Counters(s) && InUserCode(s)
    ensures Counters(Child(s, gone))
  {
    hide Count, Num, Items;
    NothingYet(Working, Token, 0);
    NothingYet(Idle, Token, 0);
    NothingYet(Listed, Token, 0);
    NothingYet(OnTheWayOut, Token, 0);
    NothingYet(Holding(Token), Token, 0);
  }
}
