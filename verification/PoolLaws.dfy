/** The laws of the pool's counters, of the pipe and of conservation, kept by every step. */
module PoolLaws {
  import opened PoolCounts
  import opened PoolState
  import opened RequestQueue
  import opened Requests

  // ---------------------------------------------------------------- the laws

  ghost predicate Alternates(polls: seq<PollEvent>) {
    forall i :: 0 <= i < |polls| ==> polls[i] == if i % 2 == 0 then Want else Done
  }

  /**
   * want_poll and done_poll alternate, starting with want, and the pipe holds one byte exactly while
   * the result queue is not empty, so done_poll never waits for a byte.
   */
  ghost predicate PipeLaw(s: State) {
    && s.npending == |s.resq|
    && s.pipe == Bool(s.resq != [])
    && Alternates(s.polls) && |s.polls| % 2 == s.pipe
  }

  /** Queued requests, not counting the tokens. */
  ghost function Queued(s: State): nat
  {
    NumLe(s.reqq, Token);
    |s.reqq| - Num(s.reqq, Token)
  }

  /** Requests that still need a worker, or have one. */
  ghost function Outstanding(s: State): nat {
    Queued(s) + Count(s.ws, Working)
  }

  /** nreqs counts every request in the queues, with a worker, or between two critical sections. */
  ghost predicate RequestsLaw(s: State) {
    s.nreqs == Outstanding(s) + |s.resq| + Bool(s.main.Dec?) + Bool(s.call.PushGroup?) && s.nreqs <= LIMIT
  }

  /** nready counts the queued requests, less every token ever shifted. */
  ghost predicate ReadyLaw(s: State) {
    s.nready == Queued(s) - s.spent
  }

  /** idle counts the workers inside the wait. */
  ghost predicate IdleLaw(s: State) {
    s.idle == Count(s.ws, Idle)
  }

  /** started counts the listed workers, less the tokens and less the workers already on their way out. */
  ghost predicate StartedLaw(s: State) {
    s.started == Count(s.ws, Listed) - Num(s.reqq, Token) - Count(s.ws, Holding(Token)) - Count(s.ws, OnTheWayOut)
      + Bool(s.call.TrimDec?)
  }

  /** No more threads than wanted, except while etp_set_max_parallel is at work. */
  ghost predicate WantedLaw(s: State) {
    && 0 <= s.wanted <= LIMIT && s.started <= LIMIT
    && (s.call.TrimTest? || s.call.TrimPush? || s.call.TrimDec? || s.started <= s.wanted)
    && (s.call.StartReads? || s.call.StartThread? ==> s.started < s.wanted)
  }

  ghost predicate Counters(s: State) {
    RequestsLaw(s) && ReadyLaw(s) && IdleLaw(s) && StartedLaw(s) && WantedLaw(s)
  }

  /** In how many places a request is. */
  ghost function Places(s: State, x: Id): nat {
    Num(s.reqq, Req(x)) + Count(s.ws, Holding(Req(x))) + Num(s.resq, x) + InHand(s, x) + Bool(x in s.delayed)
  }

  ghost function InHand(s: State, x: Id): nat {
    Bool(s.main == Dec(x) || s.main == Decide(x)) + Bool(s.call.PushGroup? && s.call.g == x) + multiset(s.hands)[x]
  }

  ghost predicate InOnePlace(s: State, x: Id) {
    Places(s, x) + s.destroyed[x] == Bool(x in s.submitted)
  }

  /** A submitted request is in exactly one place or was destroyed exactly once; others are in none. */
  ghost predicate Conserved(s: State) {
    forall x: Id :: InOnePlace(s, x)
  }

  // ---------------------------------------------------------------- steps as seen by the counts

  lemma OneMoves(ws: seq<Worker>, i: nat, w: Worker)
    requires i < |ws|
    ensures forall k :: Count(ws[i := w], k) == Count(ws, k) - Bool(Is(k, ws[i])) + Bool(Is(k, w))
  {
    forall k
      ensures Count(ws[i := w], k) == Count(ws, k) - Bool(Is(k, ws[i])) + Bool(Is(k, w))
    {
      CountUpdate(ws, i, w, k);
    }
  }

  lemma OneShifted<T>(q: seq<Entry<T>>, k: nat)
    requires k < |q|
    ensures forall x :: Num(q, x) == Num(Remove(q, k), x) + Bool(q[k].item == x)
  {
    forall x
      ensures Num(q, x) == Num(Remove(q, k), x) + Bool(q[k].item == x)
    {
      NumRemove(q, k, x);
    }
  }

  // ---------------------------------------------------------------- the pipe

  lemma PushResultPipe(s: State, x: Id, pri: nat)
    requires PipeLaw(s)
    ensures PipeLaw(PushResult(s, x, pri))
  {
  }

  lemma WorkerPipe(s: State, i: nat, a: WorkerStep)
    requires PipeLaw(s) && i < |s.ws| && WorkerEnabled(s.ws[i], a)
    ensures PipeLaw(WorkerNext(s, i, a))
  {
    hide PushResult, Alternates, BestIndex, Remove;
    if a == Advance && s.ws[i].Got? && s.ws[i].e.item.Req? {
      PushResultPipe(s.(ws := s.ws[i := Ready]), s.ws[i].e.item.id, s.ws[i].e.pri);
    }
  }

  lemma UserPipe(s: State, a: UserStep)
    requires PipeLaw(s) && UserEnabled(s, a)
    ensures PipeLaw(UserNext(s, a))
  {
    hide Alternates, SignalOk, Ranked, MayJoin, Wake;
  }

  lemma CallPipe(s: State, a: CallStep)
    requires PipeLaw(s) && CallEnabled(s, a)
    ensures PipeLaw(CallNext(s, a))
  {
    hide PushResult, Alternates, SignalOk, Wake;
    if a.PushGroupResult? {
      PushResultPipe(s.(call := NoCall), s.call.g, s.call.pri);
    }
  }

  lemma ShiftPipe(s: State)
    requires PipeLaw(s)
    ensures PipeLaw(ShiftNext(s)) && (|ShiftNext(s).polls| > |s.polls| ==> s.pipe > 0)
  {
    hide BestIndex;
  }

  lemma PollPipe(s: State, a: PollStep)
    requires PipeLaw(s) && PollEnabled(s, a)
    ensures PipeLaw(PollNext(s, a))
    ensures |PollNext(s, a).polls| > |s.polls| ==> s.pipe > 0
  {
    PollFrame(s, a);
    hide HasMember, ShiftNext, DecideNext, UnlinkNext, CheckNext, UnwindNext, Alternates;
    if a.ShiftResult? {
      ShiftPipe(s);
    } else {
      hide PollNext;
    }
  }

  /** Every step keeps the pipe law. */
  lemma PipeStep(s: State, a: Step)
    requires PipeLaw(s) && Enabled(s, a)
    ensures PipeLaw(StepTo(s, a))
  {
    hide PipeLaw, WorkerNext, UserNext, CallNext, PollNext, WorkerEnabled, UserEnabled, CallEnabled, PollEnabled;
    match a
    case ByWorker(i, b) => WorkerPipe(s, i, b);
    case ByUser(b) => UserPipe(s, b);
    case ByCall(b) => CallPipe(s, b);
    case ByPoll(b) => PollPipe(s, b);
  }

  // ---------------------------------------------------------------- the counters

  lemma TakeCounters(s: State, i: nat)
    requires i < |s.ws| && Is(Up, s.ws[i])
    requires Counters(s.(idle := s.idle + Bool(s.ws[i].Woken?)))
    ensures Counters(Take(s, i))
  {
    hide Remove, BestIndex, Count, Num, Items;
    if s.reqq == [] {
      OneMoves(s.ws, i, TimedWait);
    } else {
      var k := BestIndex(s.reqq);
      OneMoves(s.ws, i, Got(s.reqq[k]));
      OneShifted(s.reqq, k);
    }
  }

  // a worker that does not shift
  lemma MoveCounters(s: State, i: nat, w: Worker, idle: int, started: int)
    requires Counters(s) && i < |s.ws|
    requires Is(Working, w) == Is(Working, s.ws[i])
    requires idle == s.idle - Bool(Is(Idle, s.ws[i])) + Bool(Is(Idle, w))
    requires started <= s.started
    requires started - s.started == Bool(Is(Listed, w)) - Bool(Is(Listed, s.ws[i])) - Bool(Is(Holding(Token), w))
        + Bool(Is(Holding(Token), s.ws[i])) - Bool(Is(OnTheWayOut, w)) + Bool(Is(OnTheWayOut, s.ws[i]))
    ensures Counters(s.(ws := s.ws[i := w], idle := idle, started := started))
  {
    hide Count, Num, Items, Is;
    OneMoves(s.ws, i, w);
  }

  lemma ResultCounters(s: State, i: nat)
    requires Counters(s) && i < |s.ws| && Is(Working, s.ws[i])
    ensures Counters(PushResult(s.(ws := s.ws[i := Ready]), s.ws[i].e.item.id, s.ws[i].e.pri))
  {
    hide Count, Num, Items;
    OneMoves(s.ws, i, Ready);
  }

  predicate TakesOrPushes(w: Worker) {
    w.Ready? || w.Woken? || (w.Got? && w.e.item.Req?)
  }

  lemma WaitCounters(s: State, i: nat, a: WorkerStep)
    requires Counters(s) && i < |s.ws| && WorkerEnabled(s.ws[i], a) && a != Advance
    ensures Counters(WorkerNext(s, i, a))
  {
    hide Counters, Take, PushResult;
    MoveCounters(s, i, if a == Spurious then Woken else TimedOut, s.idle, s.started);
  }

  lemma TimedOutCounters(s: State, i: nat)
    requires Counters(s) && i < |s.ws| && s.ws[i].TimedOut?
    ensures Counters(WorkerNext(s, i, Advance))
  {
    hide Counters, Take, PushResult;
    MoveCounters(s, i, Leaving, s.idle - 1, s.started);
    MoveCounters(s, i, UntimedWait, s.idle, s.started);
  }

  lemma ExitCounters(s: State, i: nat)
    requires Counters(s) && i < |s.ws| && (s.ws[i].Leaving? || s.ws[i].Quitting? || Is(Holding(Token), s.ws[i]))
    ensures Counters(WorkerNext(s, i, Advance))
  {
    hide Counters, Take, PushResult;
    if s.ws[i].Leaving? {
      MoveCounters(s, i, Quitting, s.idle, s.started - 1);
    } else {
      MoveCounters(s, i, Gone, s.idle, s.started);
    }
  }

  lemma OtherCounters(s: State, i: nat, a: WorkerStep)
    requires Counters(s) && i < |s.ws| && WorkerEnabled(s.ws[i], a) && (a == Advance ==> !TakesOrPushes(s.ws[i]))
    ensures Counters(WorkerNext(s, i, a))
  {
    hide Counters, WorkerNext;
    if a != Advance {
      WaitCounters(s, i, a);
    } else if s.ws[i].TimedOut? {
      TimedOutCounters(s, i);
    } else {
      ExitCounters(s, i);
    }
  }

  lemma WorkerCounters(s: State, i: nat, a: WorkerStep)
    requires Counters(s) && i < |s.ws| && WorkerEnabled(s.ws[i], a)
    ensures Counters(WorkerNext(s, i, a))
  {
    hide Counters, Take, PushResult;
    if a == Advance && (s.ws[i].Ready? || s.ws[i].Woken?) {
      var busy := s.(idle := s.idle - Bool(s.ws[i].Woken?));
      assert busy.(idle := busy.idle + Bool(busy.ws[i].Woken?)) == s;
      TakeCounters(busy, i);
    } else if a == Advance && s.ws[i].Got? && s.ws[i].e.item.Req? {
      ResultCounters(s, i);
    } else {
      OtherCounters(s, i, a);
    }
  }

  lemma EnqueueCounts(s: State, e: Entry<Item>, woken: set<nat>)
    requires SignalOk(s.ws, woken)
    ensures var t := Enqueue(s, e, woken);
            && Num(t.reqq, Token) == Num(s.reqq, Token) + Bool(e.item.Token?)
            && Count(t.ws, Working) == Count(s.ws, Working) && Count(t.ws, Idle) == Count(s.ws, Idle)
            && Count(t.ws, Listed) == Count(s.ws, Listed) && Count(t.ws, OnTheWayOut) == Count(s.ws, OnTheWayOut)
            && (forall x :: Count(t.ws, Holding(x)) == Count(s.ws, Holding(x)))
  {
    SignalCounts(s.ws, woken);
    NumPush(s.reqq, e, Token);
  }

  lemma UserCounters(s: State, a: UserStep)
    requires Counters(s) && UserEnabled(s, a)
    ensures Counters(UserNext(s, a))
  {
    hide Count, Num, Items, SignalOk, Wake, Ranked, MayJoin;
    if a.Submit? && a.id !in s.groups {
      EnqueueCounts(s, Entry(Req(a.id), ClampPri(a.pri)), a.woken);
    }
  }

  lemma TokenCounters(s: State, woken: set<nat>)
    requires Counters(s) && s.call == TrimPush && SignalOk(s.ws, woken)
    ensures Counters(PushTokenNext(s, woken))
  {
    hide Count, Num, Items, SignalOk, Wake;
    EnqueueCounts(s, Entry(Token, TOKEN_PRI), woken);
  }

  lemma ThreadCounters(s: State)
    requires Counters(s) && CallEnabled(s, CreateThread(true))
    ensures Counters(CallNext(s, CreateThread(true)))
  {
    hide Count, Num, Items;
    forall k
      ensures Count(s.ws + [Ready], k) == Count(s.ws, k) + Bool(Is(k, Ready))
    {
      CountAppend(s.ws, Ready, k);
    }
  }

  lemma OtherCallCounters(s: State, a: CallStep)
    requires Counters(s) && CallEnabled(s, a) && !a.PushToken? && a != CreateThread(true)
    ensures Counters(CallNext(s, a))
  {
    hide Count, Num, Items, PushTokenNext;
  }

  lemma CallCounters(s: State, a: CallStep)
    requires Counters(s) && CallEnabled(s, a)
    ensures Counters(CallNext(s, a))
  {
    if a.PushToken? {
      hide Counters, PushTokenNext, SignalOk;
      TokenCounters(s, a.woken);
    } else if a == CreateThread(true) {
      hide Counters, CallNext;
      ThreadCounters(s);
    } else {
      OtherCallCounters(s, a);
    }
  }

  lemma ShiftCounters(s: State)
    requires Counters(s) && s.main == Shift && s.call == NoCall
    ensures Counters(ShiftNext(s))
  {
    hide Count, Num, Items, BestIndex;
  }

  // the other steps of eio_poll change none of what is counted, except nreqs
  lemma SameCounters(s: State, t: State)
    requires Counters(s)
    requires t.reqq == s.reqq && t.ws == s.ws && t.resq == s.resq && (t.call == s.call || t.call == StartCheck)
    requires t.nready == s.nready && t.idle == s.idle && t.started == s.started && t.wanted == s.wanted &&
      t.spent == s.spent
    requires s.call == NoCall && t.nreqs - s.nreqs == Bool(t.main.Dec?) - Bool(s.main.Dec?) <= 0
    ensures Counters(t)
  {
    hide Count, Num, Items;
  }

  lemma FinishCounters(s: State, a: PollStep)
    requires Counters(s) && PollEnabled(s, a) && !OnlyControl(a) && !a.ShiftResult?
    ensures Counters(PollNext(s, a))
  {
    FinishFrame(s, a);
    hide Counters, PollNext;
    SameCounters(s, PollNext(s, a));
  }

  lemma ControlCounters(s: State, a: PollStep)
    requires Counters(s) && PollEnabled(s, a) && OnlyControl(a)
    ensures Counters(PollNext(s, a))
  {
    ControlFrame(s, a);
    hide Counters, PollNext;
    SameCounters(s, PollNext(s, a));
  }

  lemma PollCounters(s: State, a: PollStep)
    requires Counters(s) && PollEnabled(s, a)
    ensures Counters(PollNext(s, a))
  {
    hide Counters, ShiftNext, HasMember, DecideNext, UnlinkNext, CheckNext, UnwindNext;
    if a.ShiftResult? {
      ShiftCounters(s);
    } else if OnlyControl(a) {
      ControlCounters(s, a);
    } else {
      FinishCounters(s, a);
    }
  }

  /** Every step keeps what the counters mean. */
  lemma CountersStep(s: State, a: Step)
    requires Counters(s) && Enabled(s, a)
    ensures Counters(StepTo(s, a))
  {
    hide Counters, WorkerNext, UserNext, CallNext, PollNext, WorkerEnabled, UserEnabled, CallEnabled, PollEnabled;
    match a
    case ByWorker(i, b) => WorkerCounters(s, i, b);
    case ByUser(b) => UserCounters(s, b);
    case ByCall(b) => CallCounters(s, b);
    case ByPoll(b) => PollCounters(s, b);
  }

  // ---------------------------------------------------------------- conservation

  lemma TakePlaces(s: State, i: nat, x: Id)
    requires i < |s.ws| && Is(Up, s.ws[i])
    ensures Places(Take(s, i), x) == Places(s, x)
  {
    hide Count, Num, Items, BestIndex, Remove;
    if s.reqq == [] {
      CountUpdate(s.ws, i, TimedWait, Holding(Req(x)));
    } else {
      var k := BestIndex(s.reqq);
      CountUpdate(s.ws, i, Got(s.reqq[k]), Holding(Req(x)));
      NumRemove(s.reqq, k, Req(x));
    }
  }

  lemma ResultPlaces(s: State, i: nat, x: Id)
    requires i < |s.ws| && Is(Working, s.ws[i])
    ensures Places(PushResult(s.(ws := s.ws[i := Ready]), s.ws[i].e.item.id, s.ws[i].e.pri), x) == Places(s, x)
  {
    hide Count, Num, Items;
    CountUpdate(s.ws, i, Ready, Holding(Req(x)));
    NumPush(s.resq, Entry(s.ws[i].e.item.id, s.ws[i].e.pri), x);
  }

  lemma MovePlaces(s: State, i: nat, w: Worker, idle: int, started: int, x: Id)
    requires i < |s.ws| && Is(Working, s.ws[i]) == Is(Working, w) == false
    ensures Places(s.(ws := s.ws[i := w], idle := idle, started := started), x) == Places(s, x)
  {
    hide Count, Num, Items;
    CountUpdate(s.ws, i, w, Holding(Req(x)));
  }

  lemma WorkerPlaces(s: State, i: nat, a: WorkerStep, x: Id)
    requires i < |s.ws| && WorkerEnabled(s.ws[i], a)
    ensures Places(WorkerNext(s, i, a), x) == Places(s, x)
    ensures WorkerNext(s, i, a).destroyed == s.destroyed && WorkerNext(s, i, a).submitted == s.submitted
  {
    hide Places, Take, PushResult;
    WorkerFrame(s, i, a);
    if a == Advance && s.ws[i].Ready? {
      TakePlaces(s, i, x);
    } else if a == Advance && s.ws[i].Woken? {
      var busy := s.(idle := s.idle - 1);
      TakePlaces(busy, i, x);
      SamePlaces(s, busy, x);
    } else if a == Advance && s.ws[i].Got? && s.ws[i].e.item.Req? {
      ResultPlaces(s, i, x);
    } else {
      var s' := WorkerNext(s, i, a);
      MovePlaces(s, i, s'.ws[i], s'.idle, s'.started, x);
    }
  }

  lemma SamePlaces(s: State, t: State, x: Id)
    requires s.reqq == t.reqq && s.ws == t.ws && s.resq == t.resq && s.main == t.main && s.call == t.call
    requires s.hands == t.hands && s.delayed == t.delayed
    ensures Places(s, x) == Places(t, x)
  {
    hide Count, Num, Items;
  }

  lemma WorkerConserves(s: State, i: nat, a: WorkerStep)
    requires Conserved(s) && i < |s.ws| && WorkerEnabled(s.ws[i], a)
    ensures Conserved(WorkerNext(s, i, a))
  {
    hide Places, WorkerNext, WorkerEnabled;
    forall x: Id
      ensures InOnePlace(WorkerNext(s, i, a), x)
    {
      assert InOnePlace(s, x);
      WorkerPlaces(s, i, a, x);
    }
  }

  lemma UserPlaces(s: State, a: UserStep, x: Id)
    requires UserEnabled(s, a) && InOnePlace(s, x)
    ensures InOnePlace(UserNext(s, a), x)
  {
    hide Count, Num, Items, Wake, SignalOk, MayJoin, Ranked;
    if a.Submit? && a.id !in s.groups {
      SignalCounts(s.ws, a.woken);
      NumPush(s.reqq, Entry(Req(a.id), ClampPri(a.pri)), Req(x));
    }
  }

  lemma UserConserves(s: State, a: UserStep)
    requires Conserved(s) && UserEnabled(s, a)
    ensures Conserved(UserNext(s, a))
  {
    hide InOnePlace, UserNext, UserEnabled;
    forall x: Id
      ensures InOnePlace(UserNext(s, a), x)
    {
      UserPlaces(s, a, x);
    }
  }

  lemma GroupPlaces(s: State, x: Id)
    requires CallEnabled(s, PushGroupResult) && InOnePlace(s, x)
    ensures InOnePlace(CallNext(s, PushGroupResult), x)
  {
    hide Count, Num, Items;
    NumPush(s.resq, Entry(s.call.g, s.call.pri), x);
  }

  lemma ThreadPlaces(s: State, ok: bool, x: Id)
    requires CallEnabled(s, CreateThread(ok)) && InOnePlace(s, x)
    ensures InOnePlace(CallNext(s, CreateThread(ok)), x)
  {
    hide Count, Num, Items;
    CountAppend(s.ws, Ready, Holding(Req(x)));
  }

  lemma TokenPlaces(s: State, woken: set<nat>, x: Id)
    requires SignalOk(s.ws, woken) && s.call == TrimPush && InOnePlace(s, x)
    ensures InOnePlace(PushTokenNext(s, woken), x)
  {
    hide Count, Num, Items, Wake, SignalOk;
    SignalCounts(s.ws, woken);
    NumPush(s.reqq, Entry(Token, TOKEN_PRI), Req(x));
  }

  lemma ReadPlaces(s: State, a: CallStep, x: Id)
    requires CallEnabled(s, a) && InOnePlace(s, x) && !a.PushGroupResult? && !a.CreateThread? && !a.PushToken?
    ensures InOnePlace(CallNext(s, a), x)
  {
    hide Count, Num, Items, PushTokenNext;
  }

  lemma CallPlaces(s: State, a: CallStep, x: Id)
    requires CallEnabled(s, a) && InOnePlace(s, x)
    ensures InOnePlace(CallNext(s, a), x)
  {
    hide InOnePlace, PushTokenNext, SignalOk, PushResult;
    match a
    case PushGroupResult => GroupPlaces(s, x);
    case CreateThread(ok) => ThreadPlaces(s, ok, x);
    case PushToken(woken) => TokenPlaces(s, woken, x);
    case _ => ReadPlaces(s, a, x);
  }

  lemma CallConserves(s: State, a: CallStep)
    requires Conserved(s) && CallEnabled(s, a)
    ensures Conserved(CallNext(s, a))
  {
    hide InOnePlace, CallNext, CallEnabled;
    forall x: Id
      ensures InOnePlace(CallNext(s, a), x)
    {
      CallPlaces(s, a, x);
    }
  }

  lemma ShiftPlaces(s: State, x: Id)
    requires s.main == Shift && InOnePlace(s, x)
    ensures InOnePlace(ShiftNext(s), x)
  {
    hide Count, Num, Items, BestIndex, Remove;
    if s.resq != [] {
      NumRemove(s.resq, BestIndex(s.resq), x);
    }
  }

  lemma UnwindPlaces(s: State, x: Id)
    requires s.main == Finishing(Unwind) && s.hands != [] && InOnePlace(s, x)
    ensures InOnePlace(UnwindNext(s), x)
  {
    hide Count, Num, Items;
    var n := |s.hands| - 1;
    assert s.hands == s.hands[..n] + [s.hands[n]];
  }

  // nothing moved in the queues or at the workers
  lemma OnlyHands(s: State, t: State, x: Id)
    requires t.reqq == s.reqq && t.ws == s.ws && t.resq == s.resq
    ensures Places(t, x) - InHand(t, x) - Bool(x in t.delayed) == Places(s, x) - InHand(s, x) - Bool(x in s.delayed)
    ensures Places(s, x) >= InHand(s, x) + Bool(x in s.delayed)
  {
    hide Count, Num, Items, InHand;
  }

  lemma DecidePlaces(s: State, r: Id, callback: bool, x: Id)
    requires s.main == Decide(r) && InOnePlace(s, x)
    ensures InOnePlace(DecideNext(s, r, callback), x)
  {
    hide Places, HasMember;
    OnlyHands(s, DecideNext(s, r, callback), x);
    assert multiset(s.hands + [r])[x] == multiset(s.hands)[x] + Bool(x == r);
  }

  lemma CheckPlaces(s: State, g: Id, callback: bool, x: Id)
    requires s.main == Finishing(Check(g)) && InOnePlace(s, x)
    ensures InOnePlace(CheckNext(s, g, callback), x)
  {
    hide Places, HasMember;
    OnlyHands(s, CheckNext(s, g, callback), x);
    assert multiset(s.hands + [g])[x] == multiset(s.hands)[x] + Bool(x == g);
  }

  lemma UnlinkPlaces(s: State, r: Id, x: Id)
    requires s.main == Finishing(Unlinking(r)) && InOnePlace(s, x)
    ensures InOnePlace(UnlinkNext(s, r), x)
  {
    hide Count, Num, Items;
  }

  lemma ControlPlaces(s: State, a: PollStep, x: Id)
    requires PollEnabled(s, a) && OnlyControl(a) && InOnePlace(s, x)
    ensures InOnePlace(PollNext(s, a), x)
  {
    ControlFrame(s, a);
    assert Holds(PollNext(s, a), x) == Holds(s, x);
    hide Places, PollNext;
    OnlyHands(s, PollNext(s, a), x);
  }

  lemma PollPlaces(s: State, a: PollStep, x: Id)
    requires PollEnabled(s, a) && InOnePlace(s, x)
    ensures InOnePlace(PollNext(s, a), x)
  {
    hide InOnePlace, ShiftNext, UnlinkNext, UnwindNext, DecideNext, CheckNext;
    match a
    case ShiftResult => ShiftPlaces(s, x);
    case Unlink => UnlinkPlaces(s, s.main.at.r, x);
    case UnwindHand => UnwindPlaces(s, x);
    case DecideFinish(callback) => DecidePlaces(s, s.main.r, callback, x);
    case CheckGroup(callback) => CheckPlaces(s, s.main.at.g, callback, x);
    case _ => ControlPlaces(s, a, x);
  }

  lemma PollConserves(s: State, a: PollStep)
    requires Conserved(s) && PollEnabled(s, a)
    ensures Conserved(PollNext(s, a))
  {
    hide InOnePlace, PollNext, PollEnabled;
    forall x: Id
      ensures InOnePlace(PollNext(s, a), x)
    {
      PollPlaces(s, a, x);
    }
  }

  /** Every step keeps conservation. */
  lemma ConservedStep(s: State, a: Step)
    requires Conserved(s) && Enabled(s, a)
    ensures Conserved(StepTo(s, a))
  {
    hide Conserved, WorkerNext, UserNext, CallNext, PollNext, WorkerEnabled, UserEnabled, CallEnabled, PollEnabled;
    match a
    case ByWorker(i, b) => WorkerConserves(s, i, b);
    case ByUser(b) => UserConserves(s, b);
    case ByCall(b) => CallConserves(s, b);
    case ByPoll(b) => PollConserves(s, b);
  }
}
