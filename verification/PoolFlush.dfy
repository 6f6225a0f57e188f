/**
 * When flush returns. Once user code has stopped making calls, every schedule of the remaining steps is
 * finite, and it ends with flush having returned, unless it meets a state in which flush waits for a result
 * that the workers will not produce.
 */
module PoolFlush {
  import opened PoolCounts
  import opened PoolLaws
  import opened PoolProgress
  import opened PoolQuiescence
  import opened PoolRuns
  import opened PoolState
  import opened PoolWake
  import opened RequestQueue

  predicate InFlush(s: State) {
    s.flushing && s.main != Out
  }

  /**
   * A step that is neither a call by user code, nor a spurious wake-up, nor an interrupted wait for the pipe.
   * Feeders may run, timed waits may run out, and threads may fail to start.
   */
  predicate Quiet(a: Step) {
    match a
    case ByWorker(_, b) => b != Spurious
    case ByUser(_) => false
    case ByCall(_) => true
    case ByPoll(b) => b != Unblock(true)
  }

  // ---------------------------------------------------------------- the measure

  // requests eio_poll has not decided about
  function Undecided(s: State): nat {
    (if s.nreqs > 0 then s.nreqs else 0) + Bool(s.main.Decide?)
  }

  function MainRank(main: Main, results: bool): nat {
    match main
    case After => 40
    case Top => if results then 11 else 30
    case Shift => if results then 3 else 20
    case Test => 13
    case Block => 12
    case Dec(_) => 2
    case Decide(_) => 1
    case Finishing(Callback(_)) => 6
    case Finishing(Unlinking(_)) => 5
    case Finishing(FeedCall(_, added)) => if added then 4 else 2
    case Finishing(FeedTest(_)) => 3
    case Finishing(Check(_)) => 1
    case Finishing(Unwind) => 0
    case Out => 0
  }

  function CallRank(call: Call): nat {
    match call
    case NoCall => 0
    case StartCheck => 5
    case StartReads(threads, pending) => 2 + Bool(threads.None?) + Bool(pending.None?)
    case _ => 1
  }

  // steps of the API thread, apart from the loop of etp_set_max_parallel
  function Phase(s: State): nat {
    MainRank(s.main, s.resq != []) + CallRank(s.call)
  }

  function Excess(started: int, wanted: int): nat {
    if U32(started) > U32(wanted) then U32(started) - U32(wanted) else 0
  }

  // steps of that loop, if no worker leaves meanwhile
  function TrimRank(s: State): nat {
    match s.call
    case TrimTest => 1 + 3 * Excess(s.started, s.wanted)
    case TrimPush => 3 + 3 * Excess(s.started - 1, s.wanted)
    case TrimDec => 2 + 3 * Excess(s.started - 1, s.wanted)
    case _ => 0
  }

  datatype Rank = Rank(undecided: nat, delayed: nat, hands: nat, phase: nat, alive: nat, trim: nat, work: nat)

  ghost function RankOf(s: State): Rank {
    Rank(Undecided(s), |s.delayed|, |s.hands|, Phase(s), Count(s.ws, Alive), TrimRank(s), Work(s))
  }

  /** The lexicographic order. */
  predicate Below(r: Rank, q: Rank) {
    if r.undecided != q.undecided then r.undecided < q.undecided
    else if r.delayed != q.delayed then r.delayed < q.delayed
    else if r.hands != q.hands then r.hands < q.hands
    else if r.phase != q.phase then r.phase < q.phase
    else if r.alive != q.alive then r.alive < q.alive
    else if r.trim != q.trim then r.trim < q.trim
    else r.work < q.work
  }

  // ---------------------------------------------------------------- every quiet step lowers it

  lemma TakeAlive(s: State, i: nat)
    requires i < |s.ws| && Is(Up, s.ws[i])
    ensures Count(Take(s, i).ws, Alive) == Count(s.ws, Alive)
    ensures var t := Take(s, i); t.started == s.started && t.wanted == s.wanted
    ensures var t := Take(s, i); t.hands == s.hands && t.delayed == s.delayed && t.flushing == s.flushing
  {
    hide Count, BestIndex, Remove;
    if s.reqq == [] {
      OneMoves(s.ws, i, TimedWait);
    } else {
      OneMoves(s.ws, i, Got(s.reqq[BestIndex(s.reqq)]));
    }
  }

  /** A worker that decrements `started` is alive no more. */
  lemma WorkerAlive(s: State, i: nat, a: WorkerStep)
    requires i < |s.ws| && WorkerEnabled(s.ws[i], a)
    ensures var t := WorkerNext(s, i, a);
            && Count(t.ws, Alive) <= Count(s.ws, Alive) && t.wanted == s.wanted
            && (Count(t.ws, Alive) == Count(s.ws, Alive) ==> t.started == s.started)
            && t.hands == s.hands && t.delayed == s.delayed && t.flushing == s.flushing
  {
    hide Count, Take;
    if a == Advance && s.ws[i].Ready? {
      TakeAlive(s, i);
    } else if a == Advance && s.ws[i].Woken? {
      TakeAlive(s.(idle := s.idle - 1), i);
    } else {
      OneMoves(s.ws, i, WorkerNext(s, i, a).ws[i]);
    }
  }

  lemma WorkerBelow(s: State, i: nat, a: WorkerStep)
    requires i < |s.ws| && WorkerEnabled(s.ws[i], a) && a != Spurious
    ensures Below(RankOf(WorkerNext(s, i, a)), RankOf(s))
  {
    hide WorkerNext, WorkerEnabled, Work, Count;
    StepWork(s, i, a);
    WorkerKeepsMain(s, i, a);
    WorkerAlive(s, i, a);
  }

  lemma ThreadBelow(s: State, ok: bool)
    requires CallEnabled(s, CreateThread(ok))
    ensures Below(RankOf(CallNext(s, CreateThread(ok))), RankOf(s))
  {
    hide Work, Count, PushTokenNext;
  }

  lemma TokenBelow(s: State, woken: set<nat>)
    requires CallEnabled(s, PushToken(woken))
    ensures Below(RankOf(CallNext(s, PushToken(woken))), RankOf(s))
  {
    hide Work, Count, SignalOk, Wake;
    SignalCounts(s.ws, woken);
  }

  lemma TrimBelow(s: State, a: CallStep)
    requires CallEnabled(s, a) && (a.TestStarted? || a.TrimStarted?)
    ensures Below(RankOf(CallNext(s, a)), RankOf(s))
  {
    hide Work, Count, PushTokenNext;
  }

  lemma ReadBelow(s: State, a: CallStep)
    requires CallEnabled(s, a) && !a.TestStarted? && !a.TrimStarted? && !a.PushToken? && !a.CreateThread?
    ensures Below(RankOf(CallNext(s, a)), RankOf(s))
  {
    hide Work, Count, PushTokenNext, Excess, U32, S32;
  }

  lemma CallBelow(s: State, a: CallStep)
    requires CallEnabled(s, a)
    ensures Below(RankOf(CallNext(s, a)), RankOf(s))
  {
    hide Below, RankOf, CallNext, SignalOk;
    match a
    case CreateThread(ok) => ThreadBelow(s, ok);
    case PushToken(woken) => TokenBelow(s, woken);
    case TestStarted => TrimBelow(s, a);
    case TrimStarted => TrimBelow(s, a);
    case _ => ReadBelow(s, a);
  }

  lemma ShiftBelow(s: State)
    requires s.main == Shift && s.call == NoCall && s.flushing
    ensures Below(RankOf(ShiftNext(s)), RankOf(s))
  {
    hide BestIndex, Remove, Work, Count;
  }

  lemma DecideBelow(s: State, r: Id, callback: bool)
    requires s.main == Decide(r)
    ensures Below(RankOf(DecideNext(s, r, callback)), RankOf(s))
  {
    hide HasMember, Work, Count;
  }

  lemma UnlinkBelow(s: State, r: Id)
    requires s.main == Finishing(Unlinking(r)) && s.call == NoCall
    ensures Below(RankOf(UnlinkNext(s, r)), RankOf(s))
  {
    hide Work, Count;
  }

  lemma FewerDelayed(d: set<Id>, g: Id)
    ensures g in d ==> |d - {g}| == |d| - 1
  {
  }

  lemma CheckBelow(s: State, g: Id, callback: bool)
    requires s.main == Finishing(Check(g)) && s.call == NoCall
    ensures Below(RankOf(CheckNext(s, g, callback)), RankOf(s))
  {
    hide HasMember, Work, Count;
    FewerDelayed(s.delayed, g);
  }

  lemma UnwindBelow(s: State)
    requires s.main == Finishing(Unwind) && s.hands != []
    ensures Below(RankOf(UnwindNext(s)), RankOf(s))
  {
    hide Work, Count;
  }

  lemma ControlBelow(s: State, a: PollStep)
    requires PollEnabled(s, a) && OnlyControl(a) && s.flushing && Quiet(ByPoll(a)) && 0 <= s.nreqs
    requires s.pipe == Bool(s.resq != []) && (s.main.Dec? ==> s.nreqs > 0)
    ensures Below(RankOf(PollNext(s, a)), RankOf(s)) || PollNext(s, a).main == Out
  {
    hide Work, Count, ShiftNext, DecideNext, UnlinkNext, CheckNext, UnwindNext;
  }

  lemma PollBelow(s: State, a: PollStep)
    requires PollEnabled(s, a) && InFlush(s) && Quiet(ByPoll(a)) && 0 <= s.nreqs
    requires s.pipe == Bool(s.resq != []) && (s.main.Dec? ==> s.nreqs > 0)
    ensures Below(RankOf(PollNext(s, a)), RankOf(s)) || PollNext(s, a).main == Out
  {
    hide Below, RankOf, ShiftNext, DecideNext, UnlinkNext, CheckNext, UnwindNext;
    match a
    case ShiftResult => ShiftBelow(s);
    case DecideFinish(callback) => DecideBelow(s, s.main.r, callback);
    case Unlink => UnlinkBelow(s, s.main.at.r);
    case CheckGroup(callback) => CheckBelow(s, s.main.at.g, callback);
    case UnwindHand => UnwindBelow(s);
    case _ => ControlBelow(s, a);
  }

  // ---------------------------------------------------------------- what a reachable state in flush is like

  /** The laws of all runs; and flush only waits while there are requests. */
  ghost predicate FlushLaws(s: State) {
    Lawful(s) && (s.main == Block ==> s.nreqs > 0)
  }

  lemma FlushFacts(s: State)
    requires FlushLaws(s)
    ensures 0 <= s.nreqs <= LIMIT && (s.main.Dec? ==> s.nreqs > 0) && s.pipe == Bool(s.resq != [])
    ensures s.call == StartThread ==> s.started < LIMIT
    ensures s.main.Finishing? <==> s.hands != []
  {
    hide Count, Num, Items;
  }

  lemma WorkerKeepsBlock(s: State, i: nat, a: WorkerStep)
    requires i < |s.ws| && WorkerEnabled(s.ws[i], a)
    ensures WorkerNext(s, i, a).main == s.main && WorkerNext(s, i, a).nreqs == s.nreqs
  {
    hide WorkerNext, WorkerEnabled;
    WorkerKeepsMain(s, i, a);
  }

  lemma CallKeepsBlock(s: State, a: CallStep)
    requires CallEnabled(s, a)
    ensures CallNext(s, a).main == s.main && CallNext(s, a).nreqs == s.nreqs && CallNext(s, a).flushing == s.flushing
  {
    hide SignalOk, Wake;
  }

  lemma UserKeepsBlock(s: State, a: UserStep)
    requires UserEnabled(s, a)
    ensures UserNext(s, a).main != Block
  {
    hide SignalOk, Wake, MayJoin, Ranked;
  }

  lemma PollKeepsBlock(s: State, a: PollStep)
    requires PollEnabled(s, a) && 0 <= s.nreqs <= LIMIT
    ensures PollNext(s, a).main == Block ==> PollNext(s, a).nreqs > 0
  {
    hide ShiftNext, DecideNext, UnlinkNext, CheckNext, UnwindNext;
    if a.ShiftResult? {
      ShiftLeavesBlock(s);
    } else if !OnlyControl(a) {
      FinishFrame(s, a);
    }
  }

  lemma ShiftLeavesBlock(s: State)
    ensures ShiftNext(s).main != Block
  {
    hide BestIndex, Remove;
  }

  lemma BlockStep(s: State, a: Step)
    requires FlushLaws(s) && Enabled(s, a)
    ensures StepTo(s, a).main == Block ==> StepTo(s, a).nreqs > 0
  {
    FlushFacts(s);
    hide Lawful, WorkerNext, UserNext, CallNext, PollNext, WorkerEnabled, UserEnabled, CallEnabled, PollEnabled;
    match a
    case ByWorker(i, b) => WorkerKeepsBlock(s, i, b);
    case ByUser(b) => UserKeepsBlock(s, b);
    case ByCall(b) => CallKeepsBlock(s, b);
    case ByPoll(b) => PollKeepsBlock(s, b);
  }

  lemma FlushLawsStep(s: State, a: Step)
    requires FlushLaws(s) && Enabled(s, a)
    ensures FlushLaws(StepTo(s, a))
  {
    BlockStep(s, a);
    hide Lawful, StepTo, Enabled;
    LawfulStep(s, a);
  }

  lemma {:induction false} FlushLawsRun(s: State, steps: seq<Step>)
    requires FlushLaws(s) && Legal(s, steps)
    ensures FlushLaws(Execute(s, steps))
    decreases |steps|
  {
    hide FlushLaws, StepTo, Enabled;
    if steps != [] {
      FlushLawsStep(s, steps[0]);
      FlushLawsRun(StepTo(s, steps[0]), steps[1..]);
    }
  }

  lemma FlushReached(steps: seq<Step>)
    requires Legal(INIT, steps)
    ensures FlushLaws(Execute(INIT, steps))
  {
    InitFlush();
    hide FlushLaws, Legal, Execute;
    FlushLawsRun(INIT, steps);
  }

  lemma InitFlush()
    ensures FlushLaws(INIT)
  {
    hide Lawful;
    InitLawful();
  }

  lemma PollStaysInFlush(s: State, a: PollStep)
    requires InFlush(s) && PollEnabled(s, a)
    ensures PollNext(s, a).flushing || PollNext(s, a).main == Out
  {
    hide HasMember, BestIndex, Remove;
  }

  /** Each quiet step lowers the measure, until flush has returned. */
  lemma QuietDescends(s: State, a: Step)
    requires FlushLaws(s) && InFlush(s) && Enabled(s, a) && Quiet(a)
    ensures var t := StepTo(s, a); t.main == Out || (FlushLaws(t) && InFlush(t) && Below(RankOf(t), RankOf(s)))
  {
    FlushFacts(s);
    FlushLawsStep(s, a);
    hide FlushLaws, WorkerNext, UserNext, CallNext, PollNext, WorkerEnabled, UserEnabled, CallEnabled, PollEnabled,
      Below, RankOf;
    match a
    case ByWorker(i, b) =>
      WorkerBelow(s, i, b);
      WorkerKeepsBlock(s, i, b);
      WorkerAlive(s, i, b);
    case ByCall(b) =>
      CallBelow(s, b);
      CallKeepsBlock(s, b);
    case ByPoll(b) =>
      PollBelow(s, b);
      PollStaysInFlush(s, b);
  }

  // ---------------------------------------------------------------- where it can stop

  lemma SignalExists(ws: seq<Worker>) returns (woken: set<nat>)
    ensures SignalOk(ws, woken)
  {
    woken := set i: nat | i < |ws| && IsBlocked(ws[i]);
    assert forall i :: 0 <= i < |ws| && IsBlocked(ws[i]) ==> i in woken;
  }

  lemma CallGoesOn(s: State) returns (a: CallStep)
    requires s.call != NoCall && (s.call == StartThread ==> s.started < LIMIT)
    ensures CallEnabled(s, a)
  {
    var woken := SignalExists(s.ws);
    hide SignalOk;
    a := match s.call
      case PushGroup(_, _) => PushGroupResult
      case StartCheck => CheckThreads
      case StartReads(threads, pending) =>
        if threads.None? then ReadThreads else if pending.None? then ReadPending else DecideStart
      case StartThread => CreateThread(true)
      case TrimTest => TestStarted
      case TrimPush => PushToken(woken)
      case _ => TrimStarted;
  }

  lemma PollGoesOn(s: State) returns (a: PollStep)
    requires s.call == NoCall && s.main != Out && (s.main == Block ==> s.pipe > 0) &&
      (s.main.Finishing? ==> s.hands != [])
    ensures PollEnabled(s, a) && Quiet(ByPoll(a))
  {
    a := match s.main
      case Test => FlushTest
      case Block => Unblock(false)
      case Top => MaybeStart
      case Shift => ShiftResult
      case Dec(_) => DecRequests
      case Decide(_) => DecideFinish(true)
      case Finishing(Callback(_)) => CallbackReturns
      case Finishing(Unlinking(_)) => Unlink
      case Finishing(FeedTest(_)) => TestFeed(false)
      case Finishing(FeedCall(_, _)) => FeedReturns(false)
      case Finishing(Check(_)) => CheckGroup(true)
      case Finishing(Unwind) => UnwindHand
      case _ => Next(true);
  }

  /** flush waits for a result, and the workers will not produce one. */
  ghost predicate Hopeless(s: State) {
    FlushBlocked(s) && !WillWake(s)
  }

  /** flush has returned, or nothing but user code, a spurious wake-up or an interruption can go on. */
  ghost predicate Ended(s: State) {
    s.main == Out || forall a :: Enabled(s, a) ==> !Quiet(a)
  }

  /** Inside flush, a hopeful state always has a quiet step. */
  lemma HopefulGoesOn(s: State) returns (a: Step)
    requires FlushLaws(s) && InFlush(s) && !Hopeless(s)
    ensures Quiet(a) && Enabled(s, a)
  {
    FlushFacts(s);
    hide Lawful, WillWake;
    if s.call != NoCall {
      var b := CallGoesOn(s);
      a := ByCall(b);
    } else if s.main == Block && s.pipe == 0 {
      var i := WillWakeWitness(s);
      a := ByWorker(i, Advance);
    } else {
      var b := PollGoesOn(s);
      a := ByPoll(b);
    }
  }

  /** A hopeless state stays hopeless. */
  lemma HopelessStep(s: State, a: Step)
    requires FlushLaws(s) && Hopeless(s) && Enabled(s, a) && Quiet(a)
    ensures Hopeless(StepTo(s, a))
  {
    OnlyWorkersGoOn(s, a);
    hide WorkerNext, WorkerEnabled, WillWake, FlushLaws;
    FlushFacts(s);
    FlushLawsStep(s, a);
    FlushFacts(StepTo(s, a));
    StepWillWake(s, a.i, a.worker);
    WorkerKeepsMain(s, a.i, a.worker);
  }

  lemma OnlyWorkersGoOn(s: State, a: Step)
    requires FlushBlocked(s) && Enabled(s, a) && Quiet(a)
    ensures a.ByWorker?
  {
  }

  // ---------------------------------------------------------------- flush returns, or not

  /** `steps` is a schedule of quiet steps from `s` that stops when flush has returned. */
  ghost predicate QuietRun(s: State, steps: seq<Step>)
    requires Legal(s, steps)
    decreases |steps|
  {
    steps == [] || (InFlush(s) && Quiet(steps[0]) && QuietRun(StepTo(s, steps[0]), steps[1..]))
  }

  ghost predicate MeetsHopeless(s: State, steps: seq<Step>)
    requires Legal(s, steps)
    decreases |steps|
  {
    Hopeless(s) || (steps != [] && MeetsHopeless(StepTo(s, steps[0]), steps[1..]))
  }

  lemma {:induction false} HopelessStays(s: State, steps: seq<Step>)
    requires FlushLaws(s) && Hopeless(s) && Legal(s, steps) && QuietRun(s, steps)
    ensures Hopeless(Execute(s, steps))
    decreases |steps|
  {
    hide FlushLaws, Hopeless, StepTo, Enabled;
    if steps != [] {
      HopelessStep(s, steps[0]);
      FlushLawsStep(s, steps[0]);
      HopelessStays(StepTo(s, steps[0]), steps[1..]);
    }
  }

  lemma EndedHopeless(s: State)
    requires FlushLaws(s) && InFlush(s) && Ended(s)
    ensures Hopeless(s)
  {
    hide FlushLaws, Hopeless, Enabled;
    if !Hopeless(s) {
      var a := HopefulGoesOn(s);
    }
  }

  lemma {:induction false} ReturnsIff(s: State, steps: seq<Step>)
    requires FlushLaws(s) && InFlush(s) && Legal(s, steps) && QuietRun(s, steps) && Ended(Execute(s, steps))
    ensures Execute(s, steps).main == Out <==> !MeetsHopeless(s, steps)
    decreases |steps|
  {
    if Hopeless(s) {
      HopelessStays(s, steps);
    } else if steps == [] {
      EndedHopeless(s);
    } else {
      QuietDescends(s, steps[0]);
      hide FlushLaws, StepTo, Enabled, Ended, RankOf, Below;
      var t := StepTo(s, steps[0]);
      if t.main != Out {
        ReturnsIff(t, steps[1..]);
      }
    }
  }

  /**
   * From any state that any run has reached inside flush: a schedule without further calls by user code,
   * spurious wake-ups and interruptions, carried on for as long as possible, ends with flush having returned
   * if and only if it never meets a state in which flush waits and WillWake is false.
   */
  lemma FlushReturnsIff(steps: seq<Step>, more: seq<Step>)
    requires Legal(INIT, steps) && InFlush(Execute(INIT, steps))
    requires Legal(Execute(INIT, steps), more) && QuietRun(Execute(INIT, steps), more)
    requires Ended(Execute(Execute(INIT, steps), more))
    ensures Execute(Execute(INIT, steps), more).main == Out <==> !MeetsHopeless(Execute(INIT, steps), more)
  {
    hide FlushLaws, InFlush, Legal, Execute, QuietRun, MeetsHopeless, Ended;
    FlushReached(steps);
    ReturnsIff(Execute(INIT, steps), more);
  }

  // ---------------------------------------------------------------- no schedule is endless

  ghost predicate QuietStep(s: State, t: State) {
    exists a :: Quiet(a) && Enabled(s, a) && t == StepTo(s, a)
  }

  lemma OneQuietStep(s: State, t: State)
    requires FlushLaws(s) && InFlush(s) && QuietStep(s, t)
    ensures t.main == Out || (FlushLaws(t) && InFlush(t) && Below(RankOf(t), RankOf(s)))
  {
    hide FlushLaws, InFlush, StepTo, Enabled, Below, RankOf;
    var a :| Quiet(a) && Enabled(s, a) && t == StepTo(s, a);
    QuietDescends(s, a);
  }

  lemma {:induction false} Returns(run: nat -> State, n: nat) returns (k: nat)
    requires forall m: nat :: InFlush(run(m)) ==> QuietStep(run(m), run(m + 1))
    requires FlushLaws(run(n)) && InFlush(run(n))
    ensures run(k).main == Out
    decreases RankOf(run(n)).undecided, RankOf(run(n)).delayed, RankOf(run(n)).hands, RankOf(run(n)).phase,
      RankOf(run(n)).alive, RankOf(run(n)).trim, RankOf(run(n)).work
  {
    hide FlushLaws, InFlush, QuietStep, RankOf;
    OneQuietStep(run(n), run(n + 1));
    k := n + 1;
    if run(k).main != Out {
      k := Returns(run, k);
    }
  }

  /** No schedule goes on for ever: one that always has a next quiet step inside flush leaves flush. */
  lemma NoEndlessFlush(steps: seq<Step>, run: nat -> State)
    requires Legal(INIT, steps) && run(0) == Execute(INIT, steps) && InFlush(run(0))
    requires forall n: nat :: InFlush(run(n)) ==> QuietStep(run(n), run(n + 1))
    ensures exists n: nat :: run(n).main == Out
  {
    hide FlushLaws, InFlush, QuietStep, Legal, Execute;
    FlushReached(steps);
    var k := Returns(run, 0);
  }

  /** And every state in flush has a schedule that ends. */
  lemma {:induction false} EndIsReached(s: State) returns (steps: seq<Step>)
    requires FlushLaws(s) && InFlush(s)
    ensures Legal(s, steps) && QuietRun(s, steps) && Ended(Execute(s, steps))
    decreases RankOf(s).undecided, RankOf(s).delayed, RankOf(s).hands, RankOf(s).phase, RankOf(s).alive,
      RankOf(s).trim, RankOf(s).work
  {
    hide FlushLaws, InFlush, StepTo, Enabled, RankOf;
    steps := [];
    if a :| Enabled(s, a) && Quiet(a) {
      QuietDescends(s, a);
      var t := StepTo(s, a);
      var more: seq<Step> := [];
      if t.main != Out {
        more := EndIsReached(t);
      }
      steps := [a] + more;
      assert steps[0] == a && steps[1..] == more;
    }
  }

  // ---------------------------------------------------------------- steady runs

  lemma {:induction false} SteadyNeverHopeless(s: State, steps: seq<Step>)
    requires SteadyLaws(s) && Legal(s, steps) && AllSteady(steps)
    ensures !MeetsHopeless(s, steps)
    decreases |steps|
  {
    hide SteadyLaws, StepTo, Enabled, Steady, FlushBlocked, WillWake;
    if FlushBlocked(s) {
      SteadyWillWake(s);
    }
    if steps != [] {
      assert steps[0] in steps && forall a :: a in steps[1..] ==> a in steps;
      SteadyStep(s, steps[0]);
      SteadyNeverHopeless(StepTo(s, steps[0]), steps[1..]);
    }
  }

  /** So without expired timeouts and failed thread creations flush always returns. */
  lemma FlushReturns(steps: seq<Step>, more: seq<Step>)
    requires Legal(INIT, steps) && AllSteady(steps) && InFlush(Execute(INIT, steps))
    requires Legal(Execute(INIT, steps), more) && AllSteady(more) && QuietRun(Execute(INIT, steps), more)
    requires Ended(Execute(Execute(INIT, steps), more))
    ensures Execute(Execute(INIT, steps), more).main == Out
  {
    hide SteadyLaws, InFlush, Legal, Execute, QuietRun, MeetsHopeless, Ended, AllSteady;
    InitSteady();
    SteadyRun(INIT, steps);
    SteadyNeverHopeless(Execute(INIT, steps), more);
    FlushReturnsIff(steps, more);
  }
}
