/**
 * The wake-up of a blocked flush: exactly when the workers, left to themselves, produce a result. Timed
 * waits may have run out before, threads may have failed to start, and tokens may be queued.
 */
module PoolWake {
  import opened PoolCounts
  import opened PoolLaws
  import opened PoolProgress
  import opened PoolState
  import opened RequestQueue

  /** In flush, waiting for the pipe, with requests left. */
  predicate FlushBlocked(s: State) {
    s.main == Block && s.call == NoCall && s.pipe == 0 && s.nreqs > 0
  }

  // ---------------------------------------------------------------- schedules of the workers

  predicate WorkersOnly(steps: seq<Step>) {
    forall a :: a in steps ==> a.ByWorker?
  }

  /** A schedule of the workers without spurious wake-ups; waits may run out. */
  predicate Unaided(steps: seq<Step>) {
    forall a :: a in steps ==> a.ByWorker? && a.worker != Spurious
  }

  /** No worker can go on by itself. */
  predicate AllAtRest(s: State) {
    forall i :: 0 <= i < |s.ws| ==> !WorkerEnabled(s.ws[i], Advance)
  }

  function Effort(w: Worker): nat {
    match w
    case Got(_) => 6
    case Ready => 5
    case Woken => 5
    case TimedWait => 4
    case TimedOut => 3
    case Leaving => 2
    case Quitting => 1
    case _ => 0
  }

  ghost function Efforts(ws: seq<Worker>): nat {
    if ws == [] then 0 else Efforts(ws[..|ws| - 1]) + Effort(ws[|ws| - 1])
  }

  lemma {:induction false} EffortUpdate(ws: seq<Worker>, i: nat, w: Worker)
    requires i < |ws|
    ensures Efforts(ws[i := w]) == Efforts(ws) - Effort(ws[i]) + Effort(w)
    decreases |ws|
  {
    hide Effort;
    var n := |ws| - 1;
    if i == n {
      assert ws[i := w][..n] == ws[..n];
    } else {
      EffortUpdate(ws[..n], i, w);
      assert ws[i := w][..n] == ws[..n][i := w];
    }
  }

  /** How many steps the workers can take at most before they all rest. */
  ghost function Work(s: State): nat {
    2 * |s.reqq| + Efforts(s.ws)
  }

  lemma TakeWork(s: State, i: nat)
    requires i < |s.ws| && Is(Up, s.ws[i])
    ensures Work(Take(s, i)) < Work(s)
  {
    hide Efforts, BestIndex;
    if s.reqq == [] {
      EffortUpdate(s.ws, i, TimedWait);
    } else {
      var k := BestIndex(s.reqq);
      EffortUpdate(s.ws, i, Got(s.reqq[k]));
      assert |Remove(s.reqq, k)| == |s.reqq| - 1;
    }
  }

  lemma AdvanceWork(s: State, i: nat)
    requires i < |s.ws| && WorkerEnabled(s.ws[i], Advance)
    ensures Work(WorkerNext(s, i, Advance)) < Work(s)
  {
    hide Efforts, Take;
    if s.ws[i].Ready? {
      TakeWork(s, i);
    } else if s.ws[i].Woken? {
      TakeWork(s.(idle := s.idle - 1), i);
    } else {
      EffortUpdate(s.ws, i, WorkerNext(s, i, Advance).ws[i]);
    }
  }

  /** Every step of a worker other than a spurious wake-up lowers the work. */
  lemma StepWork(s: State, i: nat, a: WorkerStep)
    requires i < |s.ws| && WorkerEnabled(s.ws[i], a) && a != Spurious
    ensures Work(WorkerNext(s, i, a)) < Work(s)
  {
    if a == Advance {
      hide Efforts, WorkerNext, WorkerEnabled;
      AdvanceWork(s, i);
    } else {
      hide Efforts;
      EffortUpdate(s.ws, i, TimedOut);
    }
  }

  lemma WorkerKeepsMain(s: State, i: nat, a: WorkerStep)
    requires i < |s.ws| && WorkerEnabled(s.ws[i], a)
    ensures var t := WorkerNext(s, i, a);
            t.main == s.main && t.call == s.call && t.nreqs == s.nreqs && |t.resq| >= |s.resq|
  {
    hide WorkerNext, WorkerEnabled;
    WorkerFrame(s, i, a);
  }

  /** Such a schedule is no longer than the work there is. */
  lemma {:induction false} WorkBounds(s: State, steps: seq<Step>)
    requires Legal(s, steps) && Unaided(steps)
    ensures |steps| + Work(Execute(s, steps)) <= Work(s)
    decreases |steps|
  {
    hide Work, WorkerNext, WorkerEnabled;
    if steps != [] {
      assert steps[0] in steps && forall a :: a in steps[1..] ==> a in steps;
      StepWork(s, steps[0].i, steps[0].worker);
      WorkBounds(StepTo(s, steps[0]), steps[1..]);
    }
  }

  /** Every state has a schedule after which all workers rest. */
  lemma {:induction false} RestIsReached(s: State) returns (steps: seq<Step>)
    ensures Legal(s, steps) && Unaided(steps) && AllAtRest(Execute(s, steps))
    decreases Work(s)
  {
    hide Work, WorkerNext, WorkerEnabled;
    steps := [];
    if i :| 0 <= i < |s.ws| && WorkerEnabled(s.ws[i], Advance) {
      AdvanceWork(s, i);
      var first := ByWorker(i, Advance);
      var more := RestIsReached(StepTo(s, first));
      steps := [first] + more;
      assert steps[0] == first && steps[1..] == more;
    }
  }

  // ---------------------------------------------------------------- when a result comes

  /** How many tokens are shifted before the first request, or in all if there is none. */
  ghost function TokensAhead(q: seq<Entry<Item>>): nat
    decreases |q|
  {
    if q == [] || q[BestIndex(q)].item.Req? then 0 else 1 + TokensAhead(Remove(q, BestIndex(q)))
  }

  lemma {:induction false} TokensAheadLe(q: seq<Entry<Item>>)
    ensures TokensAhead(q) <= Num(q, Token)
    decreases |q|
  {
    hide Num;
    if q != [] && q[BestIndex(q)].item.Token? {
      NumRemove(q, BestIndex(q), Token);
      TokensAheadLe(Remove(q, BestIndex(q)));
    }
  }

  /**
   * A worker has a request, or a request is queued and more workers are about to shift than there are
   * tokens to be shifted before it.
   */
  ghost predicate WillWake(s: State) {
    Count(s.ws, Working) > 0 || (Queued(s) > 0 && Count(s.ws, Up) > TokensAhead(s.reqq))
  }

  lemma TakeWillWake(s: State, i: nat)
    requires i < |s.ws| && Is(Up, s.ws[i])
    ensures WillWake(Take(s, i)) <==> WillWake(s)
  {
    hide Count, Num, Items, BestIndex, Remove;
    if s.reqq == [] {
      OneMoves(s.ws, i, TimedWait);
    } else {
      var k := BestIndex(s.reqq);
      OneMoves(s.ws, i, Got(s.reqq[k]));
      OneShifted(s.reqq, k);
      assert |Remove(s.reqq, k)| == |s.reqq| - 1;
      CountSome(s.ws, i, Up);
      NumLe(s.reqq, Token);
      NumLe(Remove(s.reqq, k), Token);
      assert TokensAhead(s.reqq) == if s.reqq[k].item.Req? then 0 else 1 + TokensAhead(Remove(s.reqq, k));
      assert s.reqq[k].item.Req? ==> Queued(s) > 0;
    }
  }

  lemma AdvanceWillWake(s: State, i: nat)
    requires i < |s.ws| && WorkerEnabled(s.ws[i], Advance) && s.resq == []
    ensures var t := WorkerNext(s, i, Advance);
            if t.resq == [] then WillWake(t) <==> WillWake(s) else WillWake(s)
  {
    hide Count, Num, Items, Take, TokensAhead;
    var w := s.ws[i];
    if w.Ready? || w.Woken? {
      var t := s.(idle := s.idle - Bool(w.Woken?));
      TakeWillWake(t, i);
      TakeFrame(t, i);
      assert WillWake(t) <==> WillWake(s);
    } else if w.Got? && w.e.item.Req? {
      CountSome(s.ws, i, Working);
    } else {
      OneMoves(s.ws, i, WorkerNext(s, i, Advance).ws[i]);
    }
  }

  lemma WaitingWillWake(s: State, i: nat, a: WorkerStep)
    requires i < |s.ws| && WorkerEnabled(s.ws[i], a) && a != Advance
    ensures WorkerNext(s, i, a).resq == s.resq
    ensures WillWake(s) ==> WillWake(WorkerNext(s, i, a))
    ensures a == Expire && WillWake(WorkerNext(s, i, a)) ==> WillWake(s)
  {
    hide Count, Num, Items, TokensAhead;
    OneMoves(s.ws, i, WorkerNext(s, i, a).ws[i]);
  }

  /** What a worker's step does to the forecast. Only a spurious wake-up can improve it. */
  lemma StepWillWake(s: State, i: nat, a: WorkerStep)
    requires i < |s.ws| && WorkerEnabled(s.ws[i], a) && s.resq == []
    ensures var t := WorkerNext(s, i, a);
            && (t.resq == [] ==> WillWake(s) ==> WillWake(t))
            && (t.resq == [] && a != Spurious ==> WillWake(t) ==> WillWake(s))
            && (t.resq != [] ==> WillWake(s))
  {
    hide WillWake, WorkerNext, WorkerEnabled;
    if a == Advance {
      AdvanceWillWake(s, i);
    } else {
      WaitingWillWake(s, i, a);
    }
  }

  lemma AtRestWontWake(s: State)
    requires AllAtRest(s)
    ensures !WillWake(s)
  {
    hide Count;
    CountNone(s.ws, Working);
    CountNone(s.ws, Up);
  }

  lemma WillWakeWitness(s: State) returns (i: nat)
    requires WillWake(s)
    ensures Enabled(s, ByWorker(i, Advance))
  {
    hide Count, TokensAhead;
    i := CountWitness(s.ws, if Count(s.ws, Working) > 0 then Working else Up);
  }

  /** The workers take no result back. */
  lemma {:induction false} ResultsStay(s: State, steps: seq<Step>)
    requires Legal(s, steps) && WorkersOnly(steps)
    ensures |Execute(s, steps).resq| >= |s.resq|
    decreases |steps|
  {
    hide WorkerNext, WorkerEnabled;
    if steps != [] {
      assert steps[0] in steps && forall a :: a in steps[1..] ==> a in steps;
      WorkerKeepsMain(s, steps[0].i, steps[0].worker);
      ResultsStay(StepTo(s, steps[0]), steps[1..]);
    }
  }

  /** If WillWake says so there is a result once all workers rest, under every schedule of the workers. */
  lemma {:induction false} ResultComes(s: State, steps: seq<Step>)
    requires s.resq == [] && WillWake(s)
    requires Legal(s, steps) && WorkersOnly(steps) && AllAtRest(Execute(s, steps))
    ensures Execute(s, steps).resq != []
    decreases |steps|
  {
    hide WorkerNext, WorkerEnabled, WillWake, AllAtRest;
    if steps == [] {
      AtRestWontWake(s);
    } else {
      assert steps[0] in steps && forall a :: a in steps[1..] ==> a in steps;
      var t := StepTo(s, steps[0]);
      StepWillWake(s, steps[0].i, steps[0].worker);
      if t.resq == [] {
        ResultComes(t, steps[1..]);
      } else {
        ResultsStay(t, steps[1..]);
      }
    }
  }

  /** And if it does not, none ever comes without a spurious wake-up. */
  lemma {:induction false} NoResultComes(s: State, steps: seq<Step>)
    requires s.resq == [] && !WillWake(s) && Legal(s, steps) && Unaided(steps)
    ensures Execute(s, steps).resq == [] && !WillWake(Execute(s, steps))
    decreases |steps|
  {
    hide WorkerNext, WorkerEnabled, WillWake;
    if steps != [] {
      assert steps[0] in steps && forall a :: a in steps[1..] ==> a in steps;
      StepWillWake(s, steps[0].i, steps[0].worker);
      NoResultComes(StepTo(s, steps[0]), steps[1..]);
    }
  }

  /** However the workers are scheduled until all of them rest, there is a result exactly if WillWake says so. */
  lemma ResultIff(s: State, steps: seq<Step>)
    requires s.resq == [] && Legal(s, steps) && Unaided(steps) && AllAtRest(Execute(s, steps))
    ensures Execute(s, steps).resq != [] <==> WillWake(s)
  {
    hide Legal, Execute, WillWake, AllAtRest;
    if WillWake(s) {
      ResultComes(s, steps);
    } else {
      NoResultComes(s, steps);
    }
  }

  // ---------------------------------------------------------------- steady runs

  /** If no timed wait runs out and threads can be created, a blocked flush will be woken. */
  lemma SteadyWillWake(s: State)
    requires SteadyLaws(s) && FlushBlocked(s)
    ensures WillWake(s)
  {
    hide Count, Num, Items, TokensAhead;
    assert s.resq == [] && Outstanding(s) > 0 && s.started > 0;
    TokensAheadLe(s.reqq);
    ListedParts(s.ws);
    NobodyLate(s);
  }

  lemma NobodyLate(s: State)
    requires NoneLate(s)
    ensures Count(s.ws, Late) == 0 && Count(s.ws, Awake) <= Count(s.ws, Up)
  {
    assert forall i :: 0 <= i < |s.ws| ==> !Is(Late, s.ws[i]);
    CountNone(s.ws, Late);
    CountLe(s.ws, Awake, Up);
  }
}
