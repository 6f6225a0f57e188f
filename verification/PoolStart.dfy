/**
 * What makes threads start and stop: the settings, etp_maybe_start_thread, which every submission and every
 * round of eio_poll goes through, and the timeout of an idle worker.
 */
module PoolStart {
  import opened PoolCounts
  import opened PoolFork
  import opened PoolLaws
  import opened PoolProgress
  import opened PoolQuiescence
  import opened PoolRuns
  import opened PoolState
  import opened PoolThreads
  import opened PoolWake
  import opened RequestQueue

  // ---------------------------------------------------------------- the settings

  /** How a step may change the number of threads wanted. */
  predicate WantedMoves(a: Step, before: int, after: int) {
    if a.ByUser? && a.user.SetMaxParallel? then
      after <= before && after <= a.user.n && (after == before || after == a.user.n)
    else if a.ByUser? && a.user.SetMinParallel? then
      after >= before && after >= a.user.n && (after == before || after == a.user.n)
    else
      after == before
  }

  /** A maximum only lowers it, a minimum only raises it, nothing else moves it; the same for max_idle. */
  lemma SettingsStep(s: State, a: Step)
    requires Enabled(s, a)
    ensures WantedMoves(a, s.wanted, StepTo(s, a).wanted)
    ensures StepTo(s, a).maxIdle == if a.ByUser? && a.user.SetMaxIdle? then a.user.n else s.maxIdle
  {
    hide WorkerNext, PollNext, WorkerEnabled, PollEnabled, SignalOk, MayJoin, Ranked, Wake;
    match a
    case ByWorker(i, b) => WorkerFrame(s, i, b);
    case ByUser(_) =>
    case ByCall(_) =>
    case ByPoll(b) => PollFrame(s, b);
  }

  // ---------------------------------------------------------------- etp_maybe_start_thread

  ghost predicate CallsOnly(steps: seq<Step>) {
    forall a :: a in steps ==> a.ByCall? && (a.call.CreateThread? ==> a.call.ok)
  }

  /** Fewer threads than wanted, and more requests than threads and results. */
  predicate NeedsThread(s: State) {
    s.started < s.wanted && s.started + s.npending < s.nreqs
  }

  /** Carried out without a break, and if threads can be created, it starts one exactly if one is needed. */
  lemma StartsThreadIff(s: State) returns (steps: seq<Step>)
    requires s.call == StartCheck && 0 <= s.started <= LIMIT && 0 <= s.wanted <= LIMIT
    requires 0 <= s.npending <= LIMIT && 0 <= s.nreqs <= LIMIT && s.started + s.npending <= LIMIT
    ensures CallsOnly(steps) && Legal(s, steps)
    ensures var t := Execute(s, steps);
            && t.call == NoCall && (NeedsThread(s) ==> t.ws == s.ws + [Ready] && t.started == s.started + 1)
            && (!NeedsThread(s) ==> t.ws == s.ws && t.started == s.started)
  {
    CheckingStep(s);
    hide StepTo, Enabled, Legal, Execute;
    if s.started >= s.wanted {
      steps := [ByCall(CheckThreads)];
      OneStep(s, ByCall(CheckThreads));
    } else {
      var s1 := s.(call := StartReads(None, None));
      var s2 := s.(call := StartReads(Some(s.started), None));
      var s3 := s.(call := StartReads(Some(s.started), Some(s.npending)));
      ReadingSteps(s1, s2, s3);
      DecidingStep(s, s3);
      if NeedsThread(s) {
        CreatingStep(s.(call := StartThread));
        OneStep(s.(call := StartThread), ByCall(CreateThread(true)));
        steps := [ByCall(CreateThread(true))];
        FirstStep(s3, ByCall(DecideStart), steps);
        steps := [ByCall(DecideStart)] + steps;
      } else {
        steps := [ByCall(DecideStart)];
        OneStep(s3, ByCall(DecideStart));
      }
      FirstStep(s2, ByCall(ReadPending), steps);
      steps := [ByCall(ReadPending)] + steps;
      FirstStep(s1, ByCall(ReadThreads), steps);
      steps := [ByCall(ReadThreads)] + steps;
      FirstStep(s, ByCall(CheckThreads), steps);
      steps := [ByCall(CheckThreads)] + steps;
    }
  }

  lemma CheckingStep(s: State)
    requires s.call == StartCheck && 0 <= s.started <= LIMIT && 0 <= s.wanted <= LIMIT
    ensures Enabled(s, ByCall(CheckThreads))
    ensures StepTo(s, ByCall(CheckThreads)) ==
      s.(call := if s.started >= s.wanted then NoCall else StartReads(None, None))
  {
  }

  lemma ReadingSteps(s1: State, s2: State, s3: State)
    requires s1.call == StartReads(None, None) && s2 == s1.(call := StartReads(Some(s1.started), None))
    requires s3 == s1.(call := StartReads(Some(s1.started), Some(s1.npending)))
    ensures Enabled(s1, ByCall(ReadThreads)) && StepTo(s1, ByCall(ReadThreads)) == s2
    ensures Enabled(s2, ByCall(ReadPending)) && StepTo(s2, ByCall(ReadPending)) == s3
  {
  }

  lemma DecidingStep(s: State, s3: State)
    requires s3 == s.(call := StartReads(Some(s.started), Some(s.npending))) && s.started < s.wanted
    requires 0 <= s.started && 0 <= s.npending && s.started + s.npending <= LIMIT && 0 <= s.nreqs <= LIMIT
    ensures Enabled(s3, ByCall(DecideStart))
    ensures StepTo(s3, ByCall(DecideStart)) == s.(call := if NeedsThread(s) then StartThread else NoCall)
  {
    SmallS32(s.started);
    SmallS32(s.npending);
    SmallS32(s.nreqs);
    hide S32;
  }

  lemma SmallS32(x: int)
    requires 0 <= x <= LIMIT
    ensures S32(x) == x
  {
  }

  lemma CreatingStep(s: State)
    requires s.call == StartThread && s.started < LIMIT
    ensures Enabled(s, ByCall(CreateThread(true)))
    ensures StepTo(s, ByCall(CreateThread(true))) == s.(ws := s.ws + [Ready], started := s.started + 1, call := NoCall)
  {
  }

  lemma OneStep(s: State, a: Step)
    requires Enabled(s, a)
    ensures Legal(s, [a]) && Execute(s, [a]) == StepTo(s, a)
  {
    hide StepTo, Enabled;
    assert [a][1..] == [];
  }

  lemma FirstStep(s: State, a: Step, more: seq<Step>)
    requires Enabled(s, a) && Legal(StepTo(s, a), more)
    ensures Legal(s, [a] + more) && Execute(s, [a] + more) == Execute(StepTo(s, a), more)
  {
    hide StepTo, Enabled;
    assert ([a] + more)[0] == a && ([a] + more)[1..] == more;
  }

  // ---------------------------------------------------------------- every round of eio_poll

  /** As long as no timed wait runs out, the decrements of `started` that are decided can be paid. */
  lemma {:induction false} UnexpiredSolvent(s: State, steps: seq<Step>)
    requires Lawful(s) && NoneLate(s) && Solvent(s) && Legal(s, steps) && NoExpiries(steps)
    ensures Solvent(Execute(s, steps)) && Lawful(Execute(s, steps)) && NoneLate(Execute(s, steps))
    decreases |steps|
  {
    if steps != [] {
      hide Lawful, NoneLate, Solvent, StepTo, Enabled, Steady;
      assert steps[0] in steps && forall a :: a in steps[1..] ==> a in steps;
      LateStep(s, steps[0]);
      LawfulStep(s, steps[0]);
      SolventStep(s, steps[0]);
      UnexpiredSolvent(StepTo(s, steps[0]), steps[1..]);
    }
  }

  lemma SolventStep(s: State, a: Step)
    requires Lawful(s) && NoneLate(s) && Solvent(s) && Enabled(s, a) && NoExpiry(a)
    ensures Solvent(StepTo(s, a))
  {
    MarginStep(s, a);
    if DecidesDecrement(s, a) {
      InTime(s, a);
    }
    hide StepTo, Enabled, Lawful, NoneLate, DecidesDecrement, Owed;
  }

  lemma InTime(s: State, a: Step)
    requires Lawful(s) && NoneLate(s) && Solvent(s) && Enabled(s, a) && DecidesDecrement(s, a)
    ensures s.started > Owed(s)
  {
    assert a.ByWorker? ==> !Is(Late, s.ws[a.i]);
    CountNone(s.ws, Departing);
    assert WantedLaw(s) && a == ByCall(TestStarted) && s.call == TrimTest;
    hide Lawful, Enabled, Count;
  }

  lemma InitSolvent()
    ensures Solvent(INIT)
  {
  }

  /**
   * Every round of eio_poll makes up for what went wrong with threads before. In a run without expired
   * timeouts, whatever thread creations failed and however few threads were asked for: once a round begins
   * while some are wanted, and from then on threads can be created, a flush that waits will be woken.
   */
  lemma RoundRestaffs(steps: seq<Step>, more: seq<Step>)
    requires Legal(INIT, steps) && NoExpiries(steps)
    requires Enabled(Execute(INIT, steps), ByPoll(MaybeStart)) && Execute(INIT, steps).wanted > 0
    requires Legal(StepTo(Execute(INIT, steps), ByPoll(MaybeStart)), more) && AllSteady(more)
    requires FlushBlocked(Execute(StepTo(Execute(INIT, steps), ByPoll(MaybeStart)), more))
    ensures WillWake(Execute(StepTo(Execute(INIT, steps), ByPoll(MaybeStart)), more))
  {
    hide *;
    InitSafe();
    UnexpiredSafe(INIT, steps);
    RestaffedRun(Execute(INIT, steps), more);
  }

  ghost predicate Safe(s: State) {
    Lawful(s) && NoStuckWork(s) && NoneLate(s) && Solvent(s)
  }

  lemma InitSafe()
    ensures Safe(INIT)
  {
    InitLawful();
    InitAwake();
    InitSolvent();
  }

  lemma UnexpiredSafe(s: State, steps: seq<Step>)
    requires Safe(s) && Legal(s, steps) && NoExpiries(steps)
    ensures Safe(Execute(s, steps))
  {
    hide Legal, Execute, Lawful, NoStuckWork, NoneLate, Solvent;
    UnexpiredSolvent(s, steps);
    UnexpiredRun(s, steps);
  }

  lemma RestaffedRun(s: State, more: seq<Step>)
    requires Safe(s) && s.wanted > 0 && Enabled(s, ByPoll(MaybeStart))
    requires Legal(StepTo(s, ByPoll(MaybeStart)), more) && AllSteady(more)
    requires FlushBlocked(Execute(StepTo(s, ByPoll(MaybeStart)), more))
    ensures WillWake(Execute(StepTo(s, ByPoll(MaybeStart)), more))
  {
    hide Legal, Execute, SteadyLaws, FlushBlocked, WillWake, StepTo, Enabled, Lawful, NoStuckWork, NoneLate, Solvent;
    RoundBegins(s);
    SteadyRun(StepTo(s, ByPoll(MaybeStart)), more);
    SteadyWillWake(Execute(StepTo(s, ByPoll(MaybeStart)), more));
  }

  lemma RoundBegins(s: State)
    requires Lawful(s) && NoStuckWork(s) && NoneLate(s) && Solvent(s) && s.wanted > 0
    requires Enabled(s, ByPoll(MaybeStart))
    ensures SteadyLaws(StepTo(s, ByPoll(MaybeStart)))
  {
    var a := ByPoll(MaybeStart);
    assert 0 <= s.started;
    BeginsWith(s);
    hide StepTo, Enabled, Count, Num, Items, Conserved, ForestLaw, PipeLaw, Counters, NoStuckWork, NoneLate;
    LawfulStep(s, a);
    LateStep(s, a);
    StuckStep(s, a);
  }

  lemma BeginsWith(s: State)
    requires Enabled(s, ByPoll(MaybeStart))
    ensures StepTo(s, ByPoll(MaybeStart)) == s.(main := Shift, call := StartCheck)
  {
  }

  // ---------------------------------------------------------------- after a timeout

  /** In every run: a worker leaves after a timeout exactly if more than max_idle workers are idle. */
  lemma LeavesIff(steps: seq<Step>, i: nat)
    requires Legal(INIT, steps) && i < |Execute(INIT, steps).ws| && Execute(INIT, steps).ws[i].TimedOut?
    requires Count(Execute(INIT, steps).ws, Idle) < 0x1_0000_0000
    requires 0 <= Execute(INIT, steps).maxIdle < 0x1_0000_0000
    ensures var s := Execute(INIT, steps); var t := StepTo(s, ByWorker(i, Advance));
            && |t.ws| == |s.ws| && (t.ws[i].Leaving? <==> Count(s.ws, Idle) > s.maxIdle)
            && (t.ws[i].Leaving? <==> !IsBlocked(t.ws[i]))
  {
    hide Legal, Execute, Count;
    CountersMean(steps);
  }

  // ---------------------------------------------------------------- after a fork

  /** The child keeps the settings, and its first submission starts a thread if one is wanted. */
  lemma ChildStarts(s: State, gone: seq<Id>, id: Id, pri: int) returns (steps: seq<Step>)
    requires 0 <= s.wanted <= LIMIT && s.call == NoCall && InUserCode(s)
    requires id in s.made && id !in s.submitted && id !in s.groups && -128 <= pri <= 127
    ensures var c := Child(s, gone); c.wanted == s.wanted && c.maxIdle == s.maxIdle
    ensures var c, a := Child(s, gone), ByUser(Submit(id, pri, {}));
            && Enabled(c, a) && CallsOnly(steps) && Legal(StepTo(c, a), steps)
            && Execute(StepTo(c, a), steps).call == NoCall
            && (Execute(StepTo(c, a), steps).ws == [Ready] <==> s.wanted > 0)
  {
    var c, a := Child(s, gone), ByUser(Submit(id, pri, {}));
    var t := StepTo(c, a);
    assert t.ws == [];
    steps := StartsThreadIff(t);
  }
}
