/** No stuck work and enough threads, while no timed wait runs out. */
module PoolProgress {
  import opened PoolCounts
  import opened PoolLaws
  import opened PoolState
  import opened RequestQueue

  // ---------------------------------------------------------------- no stuck work

  /** While a worker is blocked, every queue entry has an awake worker to take it. */
  ghost predicate NoStuckWork(s: State) {
    Count(s.ws, Blocked) > 0 ==> |s.reqq| <= Count(s.ws, Awake)
  }

  /** The step after a timeout: leave, or wait again without looking at the queue. */
  predicate AfterTimeout(s: State, a: Step) {
    a.ByWorker? && a.worker == Advance && a.i < |s.ws| && s.ws[a.i].TimedOut?
  }

  lemma TakeStuck(s: State, i: nat)
    requires i < |s.ws| && Is(Up, s.ws[i]) && NoStuckWork(s)
    ensures NoStuckWork(Take(s, i))
  {
    hide Count, BestIndex;
    if s.reqq == [] {
      OneMoves(s.ws, i, TimedWait);
    } else {
      OneMoves(s.ws, i, Got(s.reqq[BestIndex(s.reqq)]));
    }
  }

  lemma WorkerStuck(s: State, i: nat, a: WorkerStep)
    requires i < |s.ws| && WorkerEnabled(s.ws[i], a) && NoStuckWork(s) && !AfterTimeout(s, ByWorker(i, a))
    ensures NoStuckWork(WorkerNext(s, i, a))
  {
    hide Count, Take;
    if a == Advance && s.ws[i].Ready? {
      TakeStuck(s, i);
    } else if a == Advance && s.ws[i].Woken? {
      TakeStuck(s.(idle := s.idle - 1), i);
    } else {
      OneMoves(s.ws, i, WorkerNext(s, i, a).ws[i]);
    }
  }

  lemma UserStuck(s: State, a: UserStep)
    requires UserEnabled(s, a) && NoStuckWork(s)
    ensures NoStuckWork(UserNext(s, a))
  {
    hide Count, SignalOk, Wake, MayJoin, Ranked;
    if a.Submit? {
      SignalCounts(s.ws, a.woken);
    }
  }

  lemma CallStuck(s: State, a: CallStep)
    requires CallEnabled(s, a) && NoStuckWork(s)
    ensures NoStuckWork(CallNext(s, a))
  {
    hide Count, SignalOk, Wake;
    match a
    case PushToken(woken) => SignalCounts(s.ws, woken);
    case CreateThread(_) =>
      CountAppend(s.ws, Ready, Blocked);
      CountAppend(s.ws, Ready, Awake);
    case _ =>
  }

  /** Every step keeps it, except possibly the one after a timeout. */
  lemma StuckStep(s: State, a: Step)
    requires NoStuckWork(s) && Enabled(s, a) && !AfterTimeout(s, a)
    ensures NoStuckWork(StepTo(s, a))
  {
    match a
    case ByWorker(i, b) => WorkerStuck(s, i, b); hide *;
    case ByUser(b) => UserStuck(s, b); hide *;
    case ByCall(b) => CallStuck(s, b); hide *;
    case ByPoll(b) => PollFrame(s, b); hide Count, PollNext;
  }

  /**
   * The awake workers are enough for the queue without the one that timed out, or that one leaves and
   * nobody else is blocked.
   */
  ghost predicate Covered(s: State) {
    |s.reqq| < Count(s.ws, Awake) || (Count(s.ws, Blocked) == 0 && U32(s.idle) > U32(s.maxIdle))
  }

  /** And that step keeps it exactly if the other workers are enough. */
  lemma AfterTimeoutIff(s: State, i: nat)
    requires NoStuckWork(s) && i < |s.ws| && s.ws[i].TimedOut?
    ensures NoStuckWork(WorkerNext(s, i, Advance)) <==> Covered(s)
  {
    hide Count;
    OneMoves(s.ws, i, Leaving);
    OneMoves(s.ws, i, UntimedWait);
  }

  // ---------------------------------------------------------------- runs without timeouts

  /** A timed wait ends only by a signal or spuriously, threads can be created, and some are wanted. */
  predicate Steady(a: Step) {
    NoExpiry(a) && (a.ByUser? && a.user.SetMaxParallel? ==> a.user.n > 0) &&
      (a.ByCall? && a.call.CreateThread? ==> a.call.ok)
  }

  predicate NoExpiry(a: Step) {
    a.ByWorker? ==> a.worker != Expire
  }

  ghost predicate NoneLate(s: State) {
    forall i :: 0 <= i < |s.ws| ==> !Is(Late, s.ws[i])
  }

  lemma WorkerLate(s: State, i: nat, a: WorkerStep)
    requires NoneLate(s) && i < |s.ws| && WorkerEnabled(s.ws[i], a) && a != Expire
    ensures NoneLate(WorkerNext(s, i, a))
  {
    assert !Is(Late, s.ws[i]);
    WorkerFrame(s, i, a);
    NextNotLate(s, i, a);
    hide WorkerNext, WorkerEnabled, Is;
  }

  lemma NextNotLate(s: State, i: nat, a: WorkerStep)
    requires i < |s.ws| && WorkerEnabled(s.ws[i], a) && a != Expire && !Is(Late, s.ws[i])
    ensures |WorkerNext(s, i, a).ws| == |s.ws| && !Is(Late, WorkerNext(s, i, a).ws[i])
  {
    hide Take, PushResult;
    var w := s.ws[i];
    if a == Advance {
      if w.Ready? || w.Woken? {
        TakeFrame(s.(idle := s.idle - Bool(w.Woken?)), i);
      } else if w.Got? && w.e.item.Req? {
        ResultFrame(s.(ws := s.ws[i := Ready]), w.e.item.id, w.e.pri);
      }
    }
  }

  lemma UserLate(s: State, a: UserStep)
    requires NoneLate(s)
    ensures NoneLate(UserNext(s, a))
  {
  }

  lemma CallLate(s: State, a: CallStep)
    requires NoneLate(s) && CallEnabled(s, a)
    ensures NoneLate(CallNext(s, a))
  {
    hide SignalOk;
  }

  lemma LateStep(s: State, a: Step)
    requires NoneLate(s) && Enabled(s, a) && NoExpiry(a)
    ensures NoneLate(StepTo(s, a)) && !AfterTimeout(s, a)
  {
    assert a.ByWorker? ==> !Is(Late, s.ws[a.i]);
    hide WorkerNext, UserNext, CallNext, UserEnabled, CallEnabled, WorkerEnabled, HasMember, BestIndex, Remove;
    match a
    case ByWorker(i, b) => WorkerLate(s, i, b);
    case ByUser(b) => UserLate(s, b);
    case ByCall(b) => CallLate(s, b);
    case ByPoll(b) => PollFrame(s, b);
  }

  /** A request that needs a worker finds a thread, once the call that submitted it is over. */
  ghost predicate Staffed(s: State) {
    && 0 <= s.started && 0 < s.wanted
    && (s.call == TrimPush || s.call == TrimDec ==> s.started > 1)
    && match s.call
       case StartReads(threads, pending) =>
         && (threads.Some? ==> threads.value == s.started)
         && (pending.Some? ==> 0 <= pending.value <= s.npending)
       case StartCheck => true
       case StartThread => true
       case _ => Outstanding(s) > 0 ==> s.started > 0
  }

  /** A worker's step neither makes requests nor ends threads that `started` counts. */
  lemma TakeOutstanding(s: State, i: nat)
    requires i < |s.ws| && Is(Up, s.ws[i])
    ensures Outstanding(Take(s, i)) == Outstanding(s)
    ensures var t := Take(s, i);
            && t.started == s.started && t.wanted == s.wanted && t.call == s.call && t.npending == s.npending
  {
    hide Count, Num, Items, BestIndex, Remove;
    if s.reqq == [] {
      OneMoves(s.ws, i, TimedWait);
    } else {
      OneMoves(s.ws, i, Got(s.reqq[BestIndex(s.reqq)]));
      OneShifted(s.reqq, BestIndex(s.reqq));
      assert |Remove(s.reqq, BestIndex(s.reqq))| == |s.reqq| - 1;
    }
  }

  lemma WorkerOutstanding(s: State, i: nat, a: WorkerStep)
    requires i < |s.ws| && WorkerEnabled(s.ws[i], a) && !Is(Late, s.ws[i])
    ensures var t := WorkerNext(s, i, a);
            && Outstanding(t) <= Outstanding(s) && t.npending >= s.npending
            && t.started == s.started && t.wanted == s.wanted && t.call == s.call
  {
    hide Count, Num, Items, Take;
    if a == Advance && s.ws[i].Ready? {
      TakeOutstanding(s, i);
    } else if a == Advance && s.ws[i].Woken? {
      var t := s.(idle := s.idle - 1);
      assert Outstanding(t) == Outstanding(s);
      TakeOutstanding(t, i);
    } else {
      OneMoves(s.ws, i, WorkerNext(s, i, a).ws[i]);
    }
  }

  lemma WorkerStaffed(s: State, i: nat, a: WorkerStep)
    requires Staffed(s) && i < |s.ws| && WorkerEnabled(s.ws[i], a) && !Is(Late, s.ws[i])
    ensures Staffed(WorkerNext(s, i, a))
  {
    WorkerOutstanding(s, i, a);
    hide WorkerNext, WorkerEnabled, Outstanding, Is;
  }

  lemma UserStaffed(s: State, a: UserStep)
    requires Staffed(s) && UserEnabled(s, a) && Steady(ByUser(a))
    ensures Staffed(UserNext(s, a))
  {
    hide Count, Num, Items, SignalOk, Wake, MayJoin, Ranked;
  }

  lemma TokenStaffed(s: State, woken: set<nat>)
    requires Staffed(s) && CallEnabled(s, PushToken(woken))
    ensures Staffed(CallNext(s, PushToken(woken)))
  {
    hide Count, Num, Items, SignalOk, Wake;
    EnqueueCounts(s, Entry(Token, TOKEN_PRI), woken);
  }

  lemma ResultStaffed(s: State, a: CallStep)
    requires Staffed(s) && CallEnabled(s, a) && (a.PushGroupResult? || a == CreateThread(true))
    ensures Staffed(CallNext(s, a))
  {
    hide Count, Num, Items, PushTokenNext;
    CountAppend(s.ws, Ready, Working);
  }

  /** The heart of etp_maybe_start_thread: if it starts none, there is one or nothing needs one. */
  lemma DecisionStaffed(s: State)
    requires Staffed(s) && Counters(s) && PipeLaw(s) && CallEnabled(s, DecideStart)
    ensures Staffed(CallNext(s, DecideStart))
  {
    hide Count, Num, Items, PushTokenNext, ReadyLaw, IdleLaw, StartedLaw, Alternates;
  }

  lemma ReadStaffed(s: State, a: CallStep)
    requires Staffed(s) && WantedLaw(s) && s.npending >= 0 && CallEnabled(s, a)
    requires a.CheckThreads? || a.ReadThreads? || a.ReadPending? || a.TestStarted? || a.TrimStarted?
    ensures Staffed(CallNext(s, a))
  {
    hide Count, Num, Items, PushTokenNext;
  }

  lemma CallStaffed(s: State, a: CallStep)
    requires Staffed(s) && Counters(s) && PipeLaw(s) && CallEnabled(s, a) && Steady(ByCall(a))
    ensures Staffed(CallNext(s, a))
  {
    assert WantedLaw(s) && s.npending >= 0;
    hide Staffed, CallNext, Counters, PipeLaw, SignalOk, WantedLaw;
    match a
    case PushToken(woken) => TokenStaffed(s, woken);
    case PushGroupResult => ResultStaffed(s, a);
    case CreateThread(_) => ResultStaffed(s, a);
    case DecideStart => DecisionStaffed(s);
    case _ => ReadStaffed(s, a);
  }

  lemma PollStaffed(s: State, a: PollStep)
    requires Staffed(s) && PollEnabled(s, a)
    ensures Staffed(PollNext(s, a))
  {
    PollFrame(s, a);
    hide PollNext, Count, Num, Items;
  }

  lemma StaffedStep(s: State, a: Step)
    requires Staffed(s) && Counters(s) && PipeLaw(s) && NoneLate(s) && Enabled(s, a) && Steady(a)
    ensures Staffed(StepTo(s, a))
  {
    assert a.ByWorker? ==> !Is(Late, s.ws[a.i]);
    hide Staffed, Counters, PipeLaw, Is;
    hide WorkerNext, UserNext, CallNext, PollNext, WorkerEnabled, UserEnabled, CallEnabled, PollEnabled;
    match a
    case ByWorker(i, b) => WorkerStaffed(s, i, b);
    case ByUser(b) => UserStaffed(s, b);
    case ByCall(b) => CallStaffed(s, b);
    case ByPoll(b) => PollStaffed(s, b);
  }

  ghost predicate SteadyLaws(s: State) {
    PipeLaw(s) && Counters(s) && NoStuckWork(s) && NoneLate(s) && Staffed(s)
  }

  lemma SteadyStep(s: State, a: Step)
    requires SteadyLaws(s) && Enabled(s, a) && Steady(a)
    ensures SteadyLaws(StepTo(s, a))
  {
    assert NoExpiry(a);
    hide PipeLaw, Counters, NoStuckWork, NoneLate, Staffed, StepTo, Enabled, AfterTimeout, Steady, NoExpiry;
    PipeStep(s, a);
    CountersStep(s, a);
    LateStep(s, a);
    StuckStep(s, a);
    StaffedStep(s, a);
  }
}
