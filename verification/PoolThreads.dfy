/**
 * When the unsigned thread counter wraps around. A worker that leaves after a timeout and
 * etp_set_max_parallel both decide under one lock to decrement `started`, and do it under another.
 */
module PoolThreads {
  import opened PoolCounts
  import opened PoolLaws
  import opened PoolState
  import opened RequestQueue

  /** The decrements that are decided and still to come. */
  ghost function Owed(s: State): nat {
    Count(s.ws, Departing) + Bool(s.call.TrimPush? || s.call.TrimDec?)
  }

  /** The steps that decide one: to leave after a timeout, and to ask a worker to quit. */
  predicate DecidesDecrement(s: State, a: Step) {
    || (a.ByWorker? && a.worker == Advance && a.i < |s.ws| && s.ws[a.i].TimedOut? && U32(s.idle) > U32(s.maxIdle))
    || (a == ByCall(TestStarted) && U32(s.started) > U32(s.wanted))
  }

  /** All decrements to come can be paid. */
  ghost predicate Solvent(s: State) {
    s.started >= Owed(s)
  }

  // ---------------------------------------------------------------- what a step does to the margin

  ghost function Margin(s: State): int {
    s.started - Owed(s)
  }

  lemma TakeMargin(s: State, i: nat)
    requires i < |s.ws| && Is(Up, s.ws[i])
    ensures Margin(Take(s, i)) == Margin(s)
  {
    hide Count, BestIndex;
    if s.reqq == [] {
      OneMoves(s.ws, i, TimedWait);
    } else {
      OneMoves(s.ws, i, Got(s.reqq[BestIndex(s.reqq)]));
    }
  }

  lemma WorkerMargin(s: State, i: nat, a: WorkerStep)
    requires i < |s.ws| && WorkerEnabled(s.ws[i], a)
    ensures Margin(WorkerNext(s, i, a)) == Margin(s) - Bool(DecidesDecrement(s, ByWorker(i, a)))
  {
    hide Count, Take;
    if a == Advance && s.ws[i].Ready? {
      TakeMargin(s, i);
    } else if a == Advance && s.ws[i].Woken? {
      TakeMargin(s.(idle := s.idle - 1), i);
    } else {
      OtherMargin(s, i, a);
    }
  }

  lemma OtherMargin(s: State, i: nat, a: WorkerStep)
    requires i < |s.ws| && WorkerEnabled(s.ws[i], a)
    requires a == Advance ==> !s.ws[i].Ready? && !s.ws[i].Woken?
    ensures Margin(WorkerNext(s, i, a)) == Margin(s) - Bool(DecidesDecrement(s, ByWorker(i, a)))
  {
    WorkerFrame(s, i, a);
    if a == Advance {
      AdvanceOwes(s, i);
    }
    hide Count, Advanced;
    CountUpdate(s.ws, i, WorkerNext(s, i, a).ws[i], Departing);
  }

  lemma AdvanceOwes(s: State, i: nat)
    requires i < |s.ws| && WorkerEnabled(s.ws[i], Advance) && !s.ws[i].Ready? && !s.ws[i].Woken?
    ensures Advanced(s, i).started == s.started - Bool(s.ws[i].Leaving?)
    ensures |Advanced(s, i).ws| == |s.ws|
    ensures Advanced(s, i).ws[i].Leaving? <==> DecidesDecrement(s, ByWorker(i, Advance))
  {
    hide U32;
    if s.ws[i].Got? && s.ws[i].e.item.Req? {
      ResultFrame(s.(ws := s.ws[i := Ready]), s.ws[i].e.item.id, s.ws[i].e.pri);
      hide PushResult;
    }
  }

  lemma UserMargin(s: State, a: UserStep)
    requires UserEnabled(s, a)
    ensures Margin(UserNext(s, a)) == Margin(s)
  {
    hide Count, SignalOk, Wake, MayJoin, Ranked;
    if a.Submit? {
      SignalCounts(s.ws, a.woken);
    }
  }

  lemma CallMargin(s: State, a: CallStep)
    requires CallEnabled(s, a)
    ensures Margin(CallNext(s, a)) == Margin(s) - Bool(DecidesDecrement(s, ByCall(a))) + Bool(a == CreateThread(true))
  {
    hide Count, SignalOk, Wake;
    match a
    case PushToken(woken) => SignalCounts(s.ws, woken);
    case CreateThread(_) => CountAppend(s.ws, Ready, Departing);
    case _ =>
  }

  lemma PollMargin(s: State, a: PollStep)
    requires PollEnabled(s, a)
    ensures Margin(PollNext(s, a)) == Margin(s)
  {
    hide Count, HasMember, BestIndex, Remove;
  }

  /** Deciding a decrement lowers the margin by one, starting a thread raises it, nothing else moves it. */
  lemma MarginStep(s: State, a: Step)
    requires Enabled(s, a)
    ensures Margin(StepTo(s, a)) ==
      Margin(s) - Bool(DecidesDecrement(s, a)) + Bool(a == ByCall(CreateThread(true)))
  {
    hide Margin, WorkerNext, UserNext, CallNext, PollNext, WorkerEnabled, UserEnabled, CallEnabled, PollEnabled;
    match a
    case ByWorker(i, b) => WorkerMargin(s, i, b);
    case ByUser(b) => UserMargin(s, b);
    case ByCall(b) => CallMargin(s, b);
    case ByPoll(b) => PollMargin(s, b);
  }

  // ---------------------------------------------------------------- over whole runs

  /** Every state of the run is solvent. */
  ghost predicate StaysSolvent(s: State, steps: seq<Step>)
    requires Legal(s, steps)
    decreases |steps|
  {
    Solvent(s) && (steps == [] || StaysSolvent(StepTo(s, steps[0]), steps[1..]))
  }

  /** Whenever a decrement is decided, `started` exceeds the decrements to come. */
  ghost predicate DecidedInTime(s: State, steps: seq<Step>)
    requires Legal(s, steps)
    decreases |steps|
  {
    steps == [] ||
    ((DecidesDecrement(s, steps[0]) ==> s.started > Owed(s)) && DecidedInTime(StepTo(s, steps[0]), steps[1..]))
  }

  lemma {:induction false} StaysSolventIff(s: State, steps: seq<Step>)
    requires Solvent(s) && Legal(s, steps)
    ensures StaysSolvent(s, steps) <==> DecidedInTime(s, steps)
    decreases |steps|
  {
    hide StepTo, Enabled, Owed;
    if steps != [] {
      var t := StepTo(s, steps[0]);
      MarginStep(s, steps[0]);
      if Solvent(t) {
        StaysSolventIff(t, steps[1..]);
      }
    }
  }

  // ---------------------------------------------------------------- what solvency is worth

  /** A step that carries out a decided decrement, or leads up to that. */
  predicate Decrements(s: State, a: Step) {
    || (a.ByWorker? && a.worker == Advance && a.i < |s.ws| && s.ws[a.i].Leaving?)
    || (a.ByCall? && (a.call.PushToken? || a.call.TrimStarted?))
  }

  ghost predicate OnlyDecrements(s: State, steps: seq<Step>)
    requires Legal(s, steps)
    decreases |steps|
  {
    steps == [] || (Decrements(s, steps[0]) && OnlyDecrements(StepTo(s, steps[0]), steps[1..]))
  }

  /** As long as the decrements to come can be paid, carrying them out does not wrap the counter. */
  lemma {:induction false} SolventNeverWraps(s: State, steps: seq<Step>)
    requires Solvent(s) && Legal(s, steps) && OnlyDecrements(s, steps)
    ensures Execute(s, steps).started >= 0
    decreases |steps|
  {
    hide StepTo, Enabled, Owed, DecidesDecrement;
    if steps != [] {
      MarginStep(s, steps[0]);
      DecrementDecidesNone(s, steps[0]);
      SolventNeverWraps(StepTo(s, steps[0]), steps[1..]);
    }
  }

  lemma DecrementDecidesNone(s: State, a: Step)
    requires Enabled(s, a) && Decrements(s, a)
    ensures !DecidesDecrement(s, a)
    ensures StepTo(s, a).started == s.started - Bool(a.ByWorker? || a.call.TrimStarted?)
    ensures a.ByCall? && a.call.PushToken? ==> StepTo(s, a).call == TrimDec
  {
  }

  lemma TokenCanBePushed(s: State) returns (a: Step)
    requires s.call == TrimPush
    ensures Enabled(s, a) && a.ByCall? && a.call.PushToken?
  {
    var woken := set i: nat | i < |s.ws| && IsBlocked(s.ws[i]);
    assert forall i :: 0 <= i < |s.ws| && IsBlocked(s.ws[i]) ==> i in woken;
    a := ByCall(PushToken(woken));
  }

  /** And if they cannot, carrying out enough of them does. */
  lemma {:induction false} InsolventWraps(s: State) returns (steps: seq<Step>)
    requires !Solvent(s)
    ensures Legal(s, steps) && OnlyDecrements(s, steps) && Execute(s, steps).started < 0
    decreases Owed(s), s.call.TrimPush?
  {
    hide StepTo, Count, SignalOk;
    steps := [];
    if s.started >= 0 {
      var first := ByCall(TrimStarted);
      if s.call.TrimPush? {
        first := TokenCanBePushed(s);
      } else if !s.call.TrimDec? {
        var i := CountWitness(s.ws, Departing);
        first := ByWorker(i, Advance);
      }
      MarginStep(s, first);
      DecrementDecidesNone(s, first);
      var more := InsolventWraps(StepTo(s, first));
      steps := [first] + more;
      assert steps[0] == first && steps[1..] == more;
    }
  }

  // ---------------------------------------------------------------- the bound by `wanted`

  lemma LowestStarted(s: State)
    requires StartedLaw(s)
    ensures s.started + Num(s.reqq, Token) >= 0
  {
    hide Num;
    ListedParts(s.ws);
    CountLe(s.ws, OnTheWayOut, Late);
  }

  /**
   * Between calls the unsigned counter is at most `wanted` if it did not wrap, and only then, as long as
   * no more than LIMIT tokens are queued.
   */
  lemma BoundIffNotWrapped(s: State)
    requires StartedLaw(s) && WantedLaw(s) && s.call == NoCall
    ensures 0 <= s.started ==> U32(s.started) <= U32(s.wanted)
    ensures Num(s.reqq, Token) <= LIMIT && U32(s.started) <= U32(s.wanted) ==> 0 <= s.started
  {
    LowestStarted(s);
  }
}
