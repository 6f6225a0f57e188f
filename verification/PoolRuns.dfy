/** What holds in every run of the pool, from its first step on. */
module PoolRuns {
  import opened PoolCounts
  import opened PoolLaws
  import opened PoolProgress
  import opened PoolQuiescence
  import opened PoolState
  import opened PoolThreads
  import opened PoolWake
  import opened RequestQueue

  ghost predicate Lawful(s: State) {
    PipeLaw(s) && Counters(s) && Conserved(s) && ForestLaw(s)
  }

  lemma NothingYet(k: Kind, item: Item, x: Id)
    ensures Count([], k) == 0 && Num<Item>([], item) == 0 && Num<Id>([], x) == 0
  {
  }

  lemma EmptyCounters(s: State)
    requires s.reqq == [] && s.ws == [] && s.resq == [] && s.main == Out && s.call == NoCall
    requires s.nreqs == s.nready == s.started == s.idle == s.spent == 0 <= s.wanted <= LIMIT
    ensures Counters(s)
  {
    hide Count, Num, Items;
    NothingYet(Working, Token, 0);
    NothingYet(Idle, Token, 0);
    NothingYet(Listed, Token, 0);
    NothingYet(OnTheWayOut, Token, 0);
    NothingYet(Holding(Token), Token, 0);
  }

  lemma InitCounters()
    ensures PipeLaw(INIT) && Counters(INIT)
  {
    hide Counters;
    EmptyCounters(INIT);
  }

  lemma InitPlaces()
    ensures Conserved(INIT)
  {
    hide Count, Num, Items;
    forall x: Id
      ensures InOnePlace(INIT, x)
    {
      NothingYet(Holding(Req(x)), Req(x), x);
    }
  }

  lemma InitForest()
    ensures ForestLaw(INIT)
  {
  }

  lemma InitLawful()
    ensures Lawful(INIT)
  {
    InitCounters();
    InitPlaces();
    InitForest();
    hide PipeLaw, Counters, Conserved, ForestLaw;
  }

  lemma LawfulStep(s: State, a: Step)
    requires Lawful(s) && Enabled(s, a)
    ensures Lawful(StepTo(s, a))
  {
    hide PipeLaw, Counters, Conserved, ForestLaw, StepTo, Enabled;
    PipeStep(s, a);
    CountersStep(s, a);
    ConservedStep(s, a);
    ForestStep(s, a);
  }

  lemma {:induction false} LawfulRun(s: State, steps: seq<Step>)
    requires Lawful(s) && Legal(s, steps)
    ensures Lawful(Execute(s, steps))
    decreases |steps|
  {
    hide Lawful, StepTo, Enabled;
    if steps != [] {
      LawfulStep(s, steps[0]);
      LawfulRun(StepTo(s, steps[0]), steps[1..]);
    }
  }

  lemma Reached(steps: seq<Step>) returns (s: State)
    requires Legal(INIT, steps)
    ensures s == Execute(INIT, steps) && Lawful(s)
  {
    hide Lawful;
    InitLawful();
    LawfulRun(INIT, steps);
    s := Execute(INIT, steps);
  }

  // ---------------------------------------------------------------- all runs

  /**
   * want_poll and done_poll strictly alternate, starting with want; npending is the length of the
   * result queue, and the pipe holds one byte if and only if that queue is not empty.
   */
  lemma PipeMirrorsResults(steps: seq<Step>)
    requires Legal(INIT, steps)
    ensures var s := Execute(INIT, steps);
            && Alternates(s.polls) && s.npending == |s.resq|
            && (s.pipe == 1 <==> s.resq != []) && (s.pipe == 0 <==> s.resq == [])
  {
    hide Counters, Conserved, ForestLaw;
    var s := Reached(steps);
  }

  /** A byte is there whenever done_poll reads one, so reading never blocks. */
  lemma DonePollNeverBlocks(steps: seq<Step>)
    requires Legal(INIT, steps) && PollEnabled(Execute(INIT, steps), ShiftResult)
    ensures var s := Execute(INIT, steps);
            Done in PollNext(s, ShiftResult).polls[|s.polls|..] ==> s.pipe > 0
  {
    hide Counters, Conserved, ForestLaw, BestIndex;
    var s := Reached(steps);
  }

  /** A submitted request is in exactly one place or was destroyed, and nothing is destroyed twice. */
  lemma EachInOnePlace(steps: seq<Step>, x: Id)
    requires Legal(INIT, steps)
    ensures var s := Execute(INIT, steps);
            && s.destroyed[x] <= 1
            && (x in s.submitted ==> (Places(s, x) == 1 <==> x !in s.destroyed))
            && (x !in s.submitted ==> Places(s, x) == 0 && x !in s.destroyed)
  {
    hide PipeLaw, Counters, ForestLaw, Places;
    var s := Reached(steps);
    assert InOnePlace(s, x);
  }

  /** What the counters mean in every reachable state. */
  lemma CountersMean(steps: seq<Step>)
    requires Legal(INIT, steps)
    ensures var s := Execute(INIT, steps);
            && RequestsLaw(s) && ReadyLaw(s) && IdleLaw(s) && StartedLaw(s)
            && (s.nready == Queued(s) <==> s.spent == 0)
  {
    hide PipeLaw, Conserved, ForestLaw, RequestsLaw, IdleLaw, StartedLaw, Queued;
    var s := Reached(steps);
  }

  /**
   * Between calls the C variable `started` is at most `wanted` if and only if it did not wrap around; the
   * one direction as long as no more than LIMIT quit tokens are queued.
   */
  lemma NoMoreThanWanted(steps: seq<Step>)
    requires Legal(INIT, steps) && Execute(INIT, steps).call == NoCall
    ensures var s := Execute(INIT, steps);
            && (0 <= s.started ==> U32(s.started) <= U32(s.wanted))
            && (Num(s.reqq, Token) <= LIMIT && U32(s.started) <= U32(s.wanted) ==> 0 <= s.started)
  {
    hide PipeLaw, Conserved, ForestLaw, RequestsLaw, ReadyLaw, IdleLaw, StartedLaw, WantedLaw, Num;
    var s := Reached(steps);
    BoundIffNotWrapped(s);
  }

  /**
   * A run from the start never owes more decrements of `started` than it can pay, so that none of them
   * wraps it, if and only if each time one is decided `started` exceeds those still to come.
   */
  lemma StartedNeverWrapsIff(steps: seq<Step>)
    requires Legal(INIT, steps)
    ensures StaysSolvent(INIT, steps) <==> DecidedInTime(INIT, steps)
  {
    hide StaysSolvent, DecidedInTime;
    NothingYet(Departing, Token, 0);
    StaysSolventIff(INIT, steps);
  }

  /**
   * When nreqs is zero outside eio_poll, every submitted request was destroyed if and only if no
   * delayed group has a member that was never submitted.
   */
  lemma Quiescence(steps: seq<Step>)
    requires Legal(INIT, steps) && Outside(Execute(INIT, steps)) && Execute(INIT, steps).nreqs == 0
    ensures var s := Execute(INIT, steps);
            AllDestroyed(s) <==> forall m :: m in s.parent && s.parent[m] in s.delayed ==> m in s.submitted
  {
    hide PipeLaw, Conserved, ForestLaw, RequestsLaw, AllDestroyed;
    var s := Reached(steps);
    QuiescentIff(s);
  }

  /** flush returns only when all is done, given that every group member was submitted. */
  lemma FlushReturnsWhenDone(steps: seq<Step>, a: Step)
    requires Legal(INIT, steps) && Enabled(Execute(INIT, steps), a)
    requires Execute(INIT, steps).flushing && Execute(INIT, steps).main != Out
    requires StepTo(Execute(INIT, steps), a).main == Out
    requires forall m :: m in Execute(INIT, steps).parent ==> m in Execute(INIT, steps).submitted
    ensures var s := Execute(INIT, steps); AllDestroyed(s) && s.delayed == {} && s.nreqs == 0
  {
    hide Legal, Execute, StepTo, Enabled, Lawful, AllDestroyed;
    var s := Reached(steps);
    OnlyTestReturns(s, a);
    NothingLeft(s);
  }

  lemma NothingLeft(s: State)
    requires Lawful(s) && s.main == Test && S32(s.nreqs) <= 0 && s.call == NoCall
    requires forall m :: m in s.parent ==> m in s.submitted
    ensures AllDestroyed(s) && s.delayed == {} && s.nreqs == 0
  {
    hide PipeLaw, Conserved, ForestLaw, AllDestroyed, Queued, ReadyLaw, IdleLaw, StartedLaw, WantedLaw;
    assert 0 <= s.nreqs <= LIMIT;
    QuiescentIff(s);
    Emptied(s);
  }

  lemma OnlyTestReturns(s: State, a: Step)
    requires Enabled(s, a) && s.flushing && s.main != Out && StepTo(s, a).main == Out
    ensures s.main == Test && s.call == NoCall && S32(s.nreqs) <= 0
  {
    hide WorkerNext, WorkerEnabled, ShiftNext, DecideNext, UnlinkNext, CheckNext, UnwindNext, SignalOk, Wake, MayJoin,
      Ranked, PushResult;
    match a
    case ByWorker(i, b) => WorkerFrame(s, i, b);
    case ByUser(_) =>
    case ByCall(b) => CallKeepsMain(s, b);
    case ByPoll(b) =>
      if !OnlyControl(b) {
        FinishGoesOn(s, b);
      }
  }

  lemma CallKeepsMain(s: State, a: CallStep)
    requires CallEnabled(s, a)
    ensures CallNext(s, a).main == s.main
  {
    hide SignalOk, Wake;
  }

  lemma FinishGoesOn(s: State, a: PollStep)
    requires PollEnabled(s, a) && s.flushing && !OnlyControl(a)
    ensures PollNext(s, a).main != Out
  {
    hide HasMember, BestIndex, Remove;
  }

  lemma Emptied(s: State)
    requires Conserved(s) && AllDestroyed(s)
    ensures s.delayed == {}
  {
    forall x
      ensures x !in s.delayed
    {
      assert InOnePlace(s, x);
    }
  }

  /**
   * In any run whatever, when flush waits for the pipe: however the workers are scheduled until they all
   * rest, waits running out or not, there is a byte in the pipe then if and only if some worker had a
   * request, or one was queued and more workers were about to shift than tokens come before it. Otherwise
   * flush hangs, unless a spurious wake-up rescues it.
   */
  lemma FlushWokenIff(steps: seq<Step>, more: seq<Step>)
    requires Legal(INIT, steps) && FlushBlocked(Execute(INIT, steps))
    requires Legal(Execute(INIT, steps), more) && Unaided(more) && AllAtRest(Execute(Execute(INIT, steps), more))
    ensures Execute(Execute(INIT, steps), more).pipe > 0 <==> WillWake(Execute(INIT, steps))
  {
    hide Work, Enabled, WillWake, AllAtRest, Counters, Conserved, ForestLaw;
    var s := Reached(steps);
    ResultIff(s, more);
    LawfulRun(s, more);
  }

  /** The promising half holds with spurious wake-ups as well. */
  lemma FlushWoken(steps: seq<Step>, more: seq<Step>)
    requires Legal(INIT, steps) && FlushBlocked(Execute(INIT, steps)) && WillWake(Execute(INIT, steps))
    requires Legal(Execute(INIT, steps), more) && WorkersOnly(more) && AllAtRest(Execute(Execute(INIT, steps), more))
    ensures Execute(Execute(INIT, steps), more).pipe > 0
  {
    hide Work, Enabled, WillWake, AllAtRest, Counters, Conserved, ForestLaw;
    var s := Reached(steps);
    ResultComes(s, more);
    LawfulRun(s, more);
  }

  // ---------------------------------------------------------------- runs without timeouts

  predicate NoExpiries(steps: seq<Step>) {
    forall a :: a in steps ==> NoExpiry(a)
  }

  lemma {:induction false} UnexpiredRun(s: State, steps: seq<Step>)
    requires NoStuckWork(s) && NoneLate(s) && Legal(s, steps) && NoExpiries(steps)
    ensures NoStuckWork(Execute(s, steps)) && NoneLate(Execute(s, steps))
    decreases |steps|
  {
    hide NoStuckWork, NoneLate, StepTo, Enabled, AfterTimeout;
    if steps != [] {
      assert steps[0] in steps && forall a :: a in steps[1..] ==> a in steps;
      LateStep(s, steps[0]);
      StuckStep(s, steps[0]);
      UnexpiredRun(StepTo(s, steps[0]), steps[1..]);
    }
  }

  /**
   * If no timed wait runs out: while a worker is blocked there is at least one worker about to shift
   * for each queued request and token.
   */
  lemma NoWorkGetsStuck(steps: seq<Step>)
    requires Legal(INIT, steps) && NoExpiries(steps)
    ensures var s := Execute(INIT, steps); Count(s.ws, Blocked) > 0 ==> |s.reqq| <= Count(s.ws, Up)
  {
    hide NoneLate, Count;
    var s := Execute(INIT, steps);
    InitAwake();
    UnexpiredRun(INIT, steps);
    NobodyLate(s);
  }

  lemma InitAwake()
    ensures NoStuckWork(INIT) && NoneLate(INIT)
  {
  }

  /** So if the queue is not empty and any worker lives, some worker can take a step. */
  lemma LiveWorkerAwake(steps: seq<Step>, i: nat) returns (j: nat)
    requires Legal(INIT, steps) && NoExpiries(steps)
    requires i < |Execute(INIT, steps).ws| && !Execute(INIT, steps).ws[i].Gone? && Execute(INIT, steps).reqq != []
    ensures Enabled(Execute(INIT, steps), ByWorker(j, Advance))
  {
    hide Count, Execute, Legal;
    var s := Execute(INIT, steps);
    NoWorkGetsStuck(steps);
    if IsBlocked(s.ws[i]) {
      CountSome(s.ws, i, Blocked);
      j := CountWitness(s.ws, Up);
    } else {
      j := i;
    }
  }

  predicate AllSteady(steps: seq<Step>) {
    forall a :: a in steps ==> Steady(a)
  }

  lemma InitStaffed()
    ensures Staffed(INIT)
  {
    hide Count, Num, Items;
    NothingYet(Working, Token, 0);
  }

  lemma InitSteady()
    ensures SteadyLaws(INIT)
  {
    InitCounters();
    InitAwake();
    InitStaffed();
    hide PipeLaw, Counters, NoStuckWork, NoneLate, Staffed;
  }

  lemma {:induction false} SteadyRun(s: State, steps: seq<Step>)
    requires SteadyLaws(s) && Legal(s, steps) && AllSteady(steps)
    ensures SteadyLaws(Execute(s, steps))
    decreases |steps|
  {
    hide SteadyLaws, StepTo, Enabled, Steady;
    if steps != [] {
      assert steps[0] in steps && forall a :: a in steps[1..] ==> a in steps;
      SteadyStep(s, steps[0]);
      SteadyRun(StepTo(s, steps[0]), steps[1..]);
    }
  }

  /**
   * Without expired timeouts and failed thread creations a flush that waits for the pipe is woken up:
   * every schedule of the workers ends, and once they all rest there is a byte in the pipe.
   */
  lemma FlushNeverHangs(steps: seq<Step>, more: seq<Step>)
    requires Legal(INIT, steps) && AllSteady(steps) && FlushBlocked(Execute(INIT, steps))
    requires Legal(Execute(INIT, steps), more) && Unaided(more)
    ensures var s, t := Execute(INIT, steps), Execute(Execute(INIT, steps), more);
            && |more| <= Work(s)
            && (AllAtRest(t) ==> t.pipe > 0)
  {
    hide SteadyLaws, Work, Enabled, WillWake, AllAtRest;
    var s := Execute(INIT, steps);
    InitSteady();
    SteadyRun(INIT, steps);
    SteadyWillWake(s);
    WorkBounds(s, more);
    if AllAtRest(Execute(s, more)) {
      FlushWokenIff(steps, more);
    }
  }

  // ---------------------------------------------------------------- runs with timeouts

  /** Every state of the run keeps an awake worker for each queue entry while one is blocked. */
  ghost predicate NeverStuck(s: State, steps: seq<Step>)
    requires Legal(s, steps)
    decreases |steps|
  {
    NoStuckWork(s) && (steps == [] || NeverStuck(StepTo(s, steps[0]), steps[1..]))
  }

  /** Whenever a worker goes on after a timeout, the others are enough for the queue. */
  ghost predicate TimeoutsCovered(s: State, steps: seq<Step>)
    requires Legal(s, steps)
    decreases |steps|
  {
    steps == [] ||
    ((AfterTimeout(s, steps[0]) ==> Covered(s)) && TimeoutsCovered(StepTo(s, steps[0]), steps[1..]))
  }

  /** With timeouts, a run never gets work stuck if and only if each of them finds enough other workers awake. */
  lemma {:induction false} NeverStuckIff(s: State, steps: seq<Step>)
    requires NoStuckWork(s) && Legal(s, steps)
    ensures NeverStuck(s, steps) <==> TimeoutsCovered(s, steps)
    decreases |steps|
  {
    hide NoStuckWork, StepTo, Enabled, Covered, AfterTimeout;
    if steps != [] {
      var t := StepTo(s, steps[0]);
      if AfterTimeout(s, steps[0]) {
        StuckAfterTimeout(s, steps[0]);
      } else {
        StuckStep(s, steps[0]);
      }
      if NoStuckWork(t) {
        NeverStuckIff(t, steps[1..]);
      }
    }
  }

  lemma StuckAfterTimeout(s: State, a: Step)
    requires NoStuckWork(s) && Enabled(s, a) && AfterTimeout(s, a)
    ensures NoStuckWork(StepTo(s, a)) <==> Covered(s)
  {
    AfterTimeoutIff(s, a.i);
    hide NoStuckWork, WorkerNext, Covered;
  }

  /** One more step at the end of a run. */
  lemma Then(s: State, steps: seq<Step>, a: Step) returns (more: seq<Step>)
    requires Legal(s, steps) && Enabled(Execute(s, steps), a)
    ensures Legal(s, more) && Execute(s, more) == StepTo(Execute(s, steps), a)
    ensures more == steps + [a]
  {
    hide StepTo, Enabled;
    more := steps + [a];
    var t := Execute(s, steps);
    assert Legal(t, [a]) && Execute(t, [a]) == StepTo(t, a) by {
      assert [a][1..] == [];
    }
    RunConcat(s, steps, [a]);
  }
}
