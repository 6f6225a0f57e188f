/**
 * The thread pool as a step system: one API thread, any number of workers, three mutexes, one
 * condition variable and the wake-up pipe. Each critical section is one atomic step, and every
 * thread has a program counter that names its next step.
 */
module PoolState {
  import opened RequestQueue
  import opened Requests

  type Id = nat

  datatype Option<T> = None | Some(value: T)

  // what the request queue holds: a request, or a token that makes one worker quit
  datatype Item = Req(id: Id) | Token

  /** Where a worker is in etp_proc. */
  datatype Worker =
    | Ready                    // about to take reqlock and shift
    | TimedWait                // blocked in the timed wait
    | UntimedWait              // blocked in the wait without a timeout
    | Woken                    // unblocked, about to take reqlock again
    | TimedOut                 // the timed wait ended with ETIMEDOUT, about to take reqlock again
    | Got(e: Entry<Item>)      // self->req is set; executing it
    | Leaving                  // idle for too long, about to decrement `started`
    | Quitting                 // about to unlink itself from the worker list
    | Gone

  /** Where eio_finish and the functions it calls are. The request being finished ends `hands`. */
  datatype Finish =
    | Callback(r: Id)          // in its finish callback: user code
    | Unlinking(r: Id)
    | FeedTest(g: Id)          // the loop head of grp_try_feed
    | FeedCall(g: Id, added: bool)  // in the feeder, which has added to the group or not: user code
    | Check(g: Id)             // grp_dec: is the group done?
    | Unwind                   // about to destroy the request that ends `hands`

  /** Where the API thread is: outside eio_poll, in flush, or in eio_poll. */
  datatype Main =
    | Out                      // user code
    | Test                     // flush: about to test the number of requests
    | Block                    // flush: in poll(2) on the pipe
    | Top                      // eio_poll: about to call etp_maybe_start_thread
    | Shift                    // about to take reslock and shift
    | Dec(r: Id)               // holds r, about to decrement nreqs
    | Decide(r: Id)            // holds r, about to delay or finish it
    | Finishing(at: Finish)
    | After                    // back from eio_finish: go on or return

  /** Where a call made by the API thread in user code is. */
  datatype Call =
    | NoCall
    | PushGroup(g: Id, pri: nat)                           // etp_submit of a group, between its locks
    | StartCheck                                           // etp_maybe_start_thread, first test
    | StartReads(threads: Option<int>, pending: Option<int>)  // its second test; operands in any order
    | StartThread                                          // etp_start_thread
    | TrimTest                                             // the loop head of etp_set_max_parallel
    | TrimPush                                             // etp_end_thread, first lock
    | TrimDec                                              // etp_end_thread, second lock

  datatype PollEvent = Want | Done

  datatype State = State(
    reqq: seq<Entry<Item>>,      // req_queue, in order of arrival
    resq: seq<Entry<Id>>,        // res_queue
    ws: seq<Worker>,             // every worker ever started
    nreqs: int, nready: int, npending: int, started: int, idle: int,
    wanted: int, maxIdle: int,
    pipe: int,                   // bytes in the pipe
    polls: seq<PollEvent>,       // the calls of want_poll and done_poll so far
    spent: int,                  // quit tokens shifted so far
    main: Main, call: Call, flushing: bool,
    hands: seq<Id>,              // requests inside eio_finish, outermost first
    made: set<Id>, groups: set<Id>, submitted: set<Id>,
    destroyed: multiset<Id>,     // submitted requests, once for each time they were destroyed
    delayed: set<Id>,            // groups with int1 == 1 that are not finishing
    parent: map<Id, Id>,         // the group a linked member is in
    rank: map<Id, nat>)          // a height: members rank below their group

  const INIT: State := State([], [], [], 0, 0, 0, 0, 0, 4, 4, 0, [], 0, Out, NoCall, false, [],
                             {}, {}, {}, multiset{}, {}, map[], map[])

  // unsigned int, and the cast to int
  function U32(x: int): int { x % 0x1_0000_0000 }

  function S32(x: int): int {
    if U32(x) < 0x8000_0000 then U32(x) else U32(x) - 0x1_0000_0000
  }

  // no more than this many requests or threads exist at once
  const LIMIT: int := 0x7fff_ffff

  // ---------------------------------------------------------------- the condition variable

  predicate IsBlocked(w: Worker) { w.TimedWait? || w.UntimedWait? }

  /** A signal unblocks at least one blocked thread, if there is one. */
  predicate SignalOk(ws: seq<Worker>, woken: set<nat>) {
    && (forall i :: i in woken ==> i < |ws| && IsBlocked(ws[i]))
    && (woken == {} ==> forall i :: 0 <= i < |ws| ==> !IsBlocked(ws[i]))
  }

  function Wake(ws: seq<Worker>, woken: set<nat>): (r: seq<Worker>)
    ensures |r| == |ws|
    ensures forall i :: 0 <= i < |ws| ==> r[i] == if i in woken then Woken else ws[i]
  {
    seq(|ws|, i requires 0 <= i < |ws| => if i in woken then Woken else ws[i])
  }

  /** Under reqlock: push and signal. */
  function Enqueue(s: State, e: Entry<Item>, woken: set<nat>): State {
    s.(reqq := s.reqq + [e], ws := Wake(s.ws, woken))
  }

  /** Under reslock: count, push, and write to the pipe if the queue was empty. */
  function PushResult(s: State, x: Id, pri: nat): State {
    var t := s.(npending := s.npending + 1, resq := s.resq + [Entry(x, pri)]);
    if s.resq == [] then t.(pipe := t.pipe + 1, polls := t.polls + [Want]) else t
  }

  // ---------------------------------------------------------------- the steps of a worker

  datatype WorkerStep =
    | Advance    // the next step of its program
    | Spurious   // a spurious wake-up
    | Expire     // the timed wait reaches its end

  predicate WorkerEnabled(w: Worker, a: WorkerStep) {
    match a
    case Advance => !IsBlocked(w) && !w.Gone?
    case Spurious => IsBlocked(w)
    case Expire => w.TimedWait?
  }

  /** The head of the inner loop: shift, or count as idle and wait. */
  function Take(s: State, i: nat): State
    requires i < |s.ws|
  {
    if s.reqq == [] then
      s.(idle := s.idle + 1, ws := s.ws[i := TimedWait])
    else
      var k := BestIndex(s.reqq);
      s.(reqq := Remove(s.reqq, k), ws := s.ws[i := Got(s.reqq[k])], nready := s.nready - 1,
         spent := s.spent + if s.reqq[k].item.Token? then 1 else 0)
  }

  function Advanced(s: State, i: nat): State
    requires i < |s.ws| && WorkerEnabled(s.ws[i], Advance)
  {
    match s.ws[i]
    case Ready => Take(s, i)
    case Woken => Take(s.(idle := s.idle - 1), i)
    case TimedOut =>
      if U32(s.idle) > U32(s.maxIdle) then s.(idle := s.idle - 1, ws := s.ws[i := Leaving])
      else s.(ws := s.ws[i := UntimedWait])
    case Got(e) =>
      if e.item.Token? then s.(ws := s.ws[i := Gone])
      else PushResult(s.(ws := s.ws[i := Ready]), e.item.id, e.pri)
    case Leaving => s.(started := s.started - 1, ws := s.ws[i := Quitting])
    case Quitting => s.(ws := s.ws[i := Gone])
  }

  function WorkerNext(s: State, i: nat, a: WorkerStep): State
    requires i < |s.ws| && WorkerEnabled(s.ws[i], a)
  {
    match a
    case Advance => Advanced(s, i)
    case Spurious => s.(ws := s.ws[i := Woken])
    case Expire => s.(ws := s.ws[i := TimedOut])
  }

  // ---------------------------------------------------------------- what user code may do

  datatype UserStep =
    | New(id: Id, isGroup: bool)
    | Submit(id: Id, pri: int, woken: set<nat>)
    | GrpAdd(g: Id, m: Id, rank: map<Id, nat>)
    | SetMaxParallel(n: nat)
    | SetMinParallel(n: nat)
    | SetMaxIdle(n: nat)
    | StartPoll
    | StartFlush

  /** User code runs outside eio_poll and in callbacks and feeders. */
  predicate InUserCode(s: State) {
    s.call == NoCall && (s.main == Out || (s.main.Finishing? && (s.main.at.Callback? || s.main.at.FeedCall?)))
  }

  predicate Ranked(parent: map<Id, Id>, rank: map<Id, nat>) {
    forall m :: m in parent ==> m in rank && parent[m] in rank && rank[m] < rank[parent[m]]
  }

  /** A request that eio_finish has not passed: it may still join a group. */
  predicate MayJoin(s: State, m: Id) {
    m in s.made && m !in s.parent && m !in s.destroyed && (m in s.hands ==> s.main == Finishing(Callback(m)))
  }

  predicate UserEnabled(s: State, a: UserStep) {
    && InUserCode(s)
    && match a
       case New(id, _) => id !in s.made
       case Submit(id, pri, woken) =>
         id in s.made && id !in s.submitted && -128 <= pri <= 127 && SignalOk(s.ws, woken) && s.nreqs < LIMIT
       case GrpAdd(g, m, rank) =>
         g in s.groups && g !in s.hands && g !in s.destroyed && MayJoin(s, m) && Ranked(s.parent[m := g], rank)
       case SetMaxParallel(n) => n <= LIMIT
       case SetMinParallel(n) => n <= LIMIT
       case SetMaxIdle(n) => true
       case StartPoll => s.main == Out
       case StartFlush => s.main == Out
  }

  /** EIO_FLAG_GROUPADD, as far as the feeder that is running is concerned. */
  function NoteAdded(main: Main, g: Id): Main {
    if main == Finishing(FeedCall(g, false)) then Finishing(FeedCall(g, true)) else main
  }

  function UserNext(s: State, a: UserStep): State {
    match a
    case New(id, isGroup) => s.(made := s.made + {id}, groups := if isGroup then s.groups + {id} else s.groups)
    case Submit(id, pri, woken) =>
      var t := s.(submitted := s.submitted + {id}, nreqs := s.nreqs + 1);
      if id in s.groups then t.(call := PushGroup(id, ClampPri(pri)))
      else Enqueue(t.(nready := t.nready + 1, call := StartCheck), Entry(Req(id), ClampPri(pri)), woken)
    case GrpAdd(g, m, rank) => s.(parent := s.parent[m := g], rank := rank, main := NoteAdded(s.main, g))
    case SetMaxParallel(n) => s.(wanted := if s.wanted > n then n else s.wanted, call := TrimTest)
    case SetMinParallel(n) => s.(wanted := if s.wanted < n then n else s.wanted)
    case SetMaxIdle(n) => s.(maxIdle := n)
    case StartPoll => s.(main := Top)
    case StartFlush => s.(main := Test, flushing := true)
  }

  // ---------------------------------------------------------------- the calls user code made

  datatype CallStep =
    | PushGroupResult
    | CheckThreads
    | ReadThreads
    | ReadPending
    | DecideStart
    | CreateThread(ok: bool)       // thread_create may fail
    | TestStarted                  // the loop test of etp_set_max_parallel
    | PushToken(woken: set<nat>)
    | TrimStarted

  predicate CallEnabled(s: State, a: CallStep) {
    match a
    case PushGroupResult => s.call.PushGroup?
    case CheckThreads => s.call == StartCheck
    case ReadThreads => s.call.StartReads? && s.call.threads.None?
    case ReadPending => s.call.StartReads? && s.call.pending.None?
    case DecideStart => s.call.StartReads? && s.call.threads.Some? && s.call.pending.Some?
    case CreateThread(ok) => s.call == StartThread && s.started < LIMIT
    case TestStarted => s.call == TrimTest
    case PushToken(woken) => s.call == TrimPush && SignalOk(s.ws, woken)
    case TrimStarted => s.call == TrimDec
  }

  const TOKEN_PRI: nat := PRI_MAX - PRI_MIN

  function PushTokenNext(s: State, woken: set<nat>): State {
    Enqueue(s.(call := TrimDec), Entry(Token, TOKEN_PRI), woken)
  }

  function CallNext(s: State, a: CallStep): State
    requires CallEnabled(s, a)
  {
    match a
    case PushGroupResult => PushResult(s.(call := NoCall), s.call.g, s.call.pri)
    case CheckThreads => s.(call := if U32(s.started) >= U32(s.wanted) then NoCall else StartReads(None, None))
    case ReadThreads => s.(call := StartReads(Some(s.started), s.call.pending))
    case ReadPending => s.(call := StartReads(s.call.threads, Some(s.npending)))
    case DecideStart =>
      s.(call :=
        if 0 <= S32(s.call.threads.value) + S32(s.call.pending.value) - S32(s.nreqs) then NoCall else StartThread)
    case CreateThread(ok) =>
      if ok then s.(ws := s.ws + [Ready], started := s.started + 1, call := NoCall) else s.(call := NoCall)
    case TestStarted => s.(call := if U32(s.started) > U32(s.wanted) then TrimPush else NoCall)
    case PushToken(woken) => PushTokenNext(s, woken)
    case TrimStarted => s.(started := s.started - 1, call := TrimTest)
  }

  // ---------------------------------------------------------------- eio_poll and flush

  datatype PollStep =
    | FlushTest
    | Unblock(interrupted: bool)
    | MaybeStart
    | ShiftResult
    | DecRequests
    | DecideFinish(callback: bool)   // whether the finish callback runs
    | CallbackReturns
    | Unlink
    | TestFeed(feed: bool)           // whether the group is below its limit and not cancelled
    | FeedReturns(again: bool)       // whether the group's flag is still set
    | CheckGroup(callback: bool)
    | UnwindHand
    | Next(again: bool)              // the request and time limits and the callback's result

  ghost predicate HasMember(s: State, g: Id) {
    exists m :: m in s.parent && s.parent[m] == g
  }

  predicate PollEnabled(s: State, a: PollStep) {
    && s.call == NoCall
    && match a
       case FlushTest => s.main == Test
       case Unblock(interrupted) => s.main == Block && (s.pipe > 0 || interrupted)
       case MaybeStart => s.main == Top
       case ShiftResult => s.main == Shift
       case DecRequests => s.main.Dec?
       case DecideFinish(_) => s.main.Decide?
       case CallbackReturns => s.main.Finishing? && s.main.at.Callback?
       case Unlink => s.main.Finishing? && s.main.at.Unlinking?
       case TestFeed(_) => s.main.Finishing? && s.main.at.FeedTest?
       case FeedReturns(again) => s.main.Finishing? && s.main.at.FeedCall? && (again ==> s.main.at.added)
       case CheckGroup(_) => s.main.Finishing? && s.main.at.Check?
       case UnwindHand => s.main == Finishing(Unwind) && s.hands != []
       case Next(_) => s.main == After
  }

  function Return(s: State): State {
    s.(main := if s.flushing then Test else Out)
  }

  /** The entry of eio_finish. */
  function EnterFinish(s: State, r: Id, callback: bool): State {
    s.(hands := s.hands + [r], main := Finishing(if callback then Callback(r) else Unlinking(r)))
  }

  /** Under reslock: shift, and read from the pipe if the queue is empty then. */
  function ShiftNext(s: State): State {
    if s.resq == [] then Return(s)
    else
      var k := BestIndex(s.resq);
      var t := s.(main := Dec(s.resq[k].item), resq := Remove(s.resq, k), npending := s.npending - 1);
      if t.resq == [] then t.(pipe := t.pipe - 1, polls := t.polls + [Done]) else t
  }

  /** A group that has members is delayed, anything else is finished. */
  ghost function DecideNext(s: State, r: Id, callback: bool): State {
    if r in s.groups && HasMember(s, r) then s.(main := Top, delayed := s.delayed + {r})
    else EnterFinish(s, r, callback)
  }

  function UnlinkNext(s: State, r: Id): State {
    if r in s.parent then s.(parent := s.parent - {r}, main := Finishing(FeedTest(s.parent[r])))
    else s.(main := Finishing(Unwind))
  }

  /** The end of grp_dec: finish a delayed group whose last member is gone. */
  ghost function CheckNext(s: State, g: Id, callback: bool): State {
    if !HasMember(s, g) && g in s.delayed then EnterFinish(s.(delayed := s.delayed - {g}), g, callback)
    else s.(main := Finishing(Unwind))
  }

  function UnwindNext(s: State): State
    requires s.hands != []
  {
    var n := |s.hands| - 1;
    s.(hands := s.hands[..n], destroyed := s.destroyed + multiset{s.hands[n]},
       main := if n == 0 then After else Finishing(Unwind))
  }

  ghost function PollNext(s: State, a: PollStep): State
    requires PollEnabled(s, a)
  {
    match a
    case FlushTest => if S32(s.nreqs) > 0 then s.(main := Block) else s.(main := Out, flushing := false)
    case Unblock(_) => s.(main := Top)
    case MaybeStart => s.(main := Shift, call := StartCheck)
    case ShiftResult => ShiftNext(s)
    case DecRequests => s.(main := Decide(s.main.r), nreqs := s.nreqs - 1)
    case DecideFinish(callback) => DecideNext(s, s.main.r, callback)
    case CallbackReturns => s.(main := Finishing(Unlinking(s.main.at.r)))
    case Unlink => UnlinkNext(s, s.main.at.r)
    case TestFeed(feed) => s.(main := Finishing(if feed then FeedCall(s.main.at.g, false) else Check(s.main.at.g)))
    case FeedReturns(again) => s.(main := Finishing(if again then FeedTest(s.main.at.g) else Check(s.main.at.g)))
    case CheckGroup(callback) => CheckNext(s, s.main.at.g, callback)
    case UnwindHand => UnwindNext(s)
    case Next(again) => if again then s.(main := Top) else Return(s)
  }

  // ---------------------------------------------------------------- what steps leave alone

  /** The parts of the state that only the API thread changes. */
  predicate SameApi(s: State, t: State) {
    && t.main == s.main && t.call == s.call && t.flushing == s.flushing && t.hands == s.hands && t.nreqs == s.nreqs
    && t.wanted == s.wanted && t.maxIdle == s.maxIdle
    && t.made == s.made && t.groups == s.groups && t.submitted == s.submitted && t.destroyed == s.destroyed
    && t.delayed == s.delayed && t.parent == s.parent && t.rank == s.rank
  }

  lemma TakeFrame(s: State, i: nat)
    requires i < |s.ws|
    ensures SameApi(s, Take(s, i)) && Take(s, i).resq == s.resq
    ensures var t := Take(s, i); |t.ws| == |s.ws| && t.ws == s.ws[i := t.ws[i]] && (t.ws[i].TimedWait? || t.ws[i].Got?)
  {
    hide BestIndex, Remove;
  }

  lemma ResultFrame(s: State, x: Id, pri: nat)
    ensures SameApi(s, PushResult(s, x, pri)) && |PushResult(s, x, pri).resq| == |s.resq| + 1
    ensures PushResult(s, x, pri).ws == s.ws && PushResult(s, x, pri).started == s.started
  {
  }

  lemma WorkerFrame(s: State, i: nat, a: WorkerStep)
    requires i < |s.ws| && WorkerEnabled(s.ws[i], a)
    ensures SameApi(s, WorkerNext(s, i, a)) && |WorkerNext(s, i, a).resq| >= |s.resq|
    ensures var t := WorkerNext(s, i, a); |t.ws| == |s.ws| && t.ws == s.ws[i := t.ws[i]]
  {
    hide Take, PushResult;
    if a == Advance {
      var w := s.ws[i];
      if w.Ready? || w.Woken? {
        TakeFrame(s.(idle := s.idle - if w.Woken? then 1 else 0), i);
      } else if w.Got? && w.e.item.Req? {
        ResultFrame(s.(ws := s.ws[i := Ready]), w.e.item.id, w.e.pri);
      }
    }
  }

  /** The parts that eio_poll and flush do not change. */
  predicate SamePool(s: State, t: State) {
    && t.reqq == s.reqq && t.ws == s.ws && t.nready == s.nready && t.started == s.started && t.idle == s.idle
    && t.wanted == s.wanted && t.maxIdle == s.maxIdle && t.spent == s.spent
    && t.made == s.made && t.groups == s.groups && t.submitted == s.submitted
    && (t.call == s.call || t.call == StartCheck)
  }

  lemma ShiftFrame(s: State)
    ensures SamePool(s, ShiftNext(s)) && !AtCheck(ShiftNext(s).main)
  {
    hide BestIndex, Remove;
  }

  // the steps that only move the program counter
  predicate OnlyControl(a: PollStep) {
    !a.ShiftResult? && !a.UnwindHand? && !a.DecideFinish? && !a.CheckGroup? && !a.Unlink?
  }

  /** The parts that only a shift or a push of results changes. */
  predicate SameResults(s: State, t: State) {
    t.resq == s.resq && t.npending == s.npending && t.pipe == s.pipe && t.polls == s.polls
  }

  predicate Holds(s: State, x: Id) {
    s.main == Dec(x) || s.main == Decide(x)
  }

  /** The steps that only move the program counter, and the one that decrements nreqs. */
  lemma ControlFrame(s: State, a: PollStep)
    requires PollEnabled(s, a) && OnlyControl(a)
    ensures var t := PollNext(s, a);
            && SamePool(s, t) && SameResults(s, t) && t.hands == s.hands && t.delayed == s.delayed
            && t.destroyed == s.destroyed && t.nreqs == (if s.main.Dec? then s.nreqs - 1 else s.nreqs)
            && !t.main.Dec? && (forall x :: Holds(t, x) == Holds(s, x))
  {
    hide ShiftNext, DecideNext, UnlinkNext, CheckNext, UnwindNext;
  }

  predicate SameButHands(s: State, t: State) {
    && SamePool(s, t) && SameResults(s, t) && t.nreqs == s.nreqs && t.call == s.call && !t.main.Dec? && t.main != Block
    && !AtCheck(t.main)
  }

  predicate AtCheck(main: Main) {
    main.Finishing? && main.at.Check?
  }

  lemma DecideFrame(s: State, r: Id, callback: bool)
    ensures SameButHands(s, DecideNext(s, r, callback))
  {
    hide HasMember;
  }

  lemma UnlinkFrame(s: State, r: Id)
    ensures SameButHands(s, UnlinkNext(s, r))
  {
  }

  lemma CheckFrame(s: State, g: Id, callback: bool)
    ensures SameButHands(s, CheckNext(s, g, callback))
  {
    hide HasMember;
  }

  lemma UnwindFrame(s: State)
    requires s.hands != []
    ensures SameButHands(s, UnwindNext(s))
  {
  }

  /** The steps that finish a request. */
  lemma FinishFrame(s: State, a: PollStep)
    requires PollEnabled(s, a) && !OnlyControl(a) && !a.ShiftResult?
    ensures SameButHands(s, PollNext(s, a)) && !s.main.Dec? && s.call == NoCall
  {
    hide SameButHands, ShiftNext, DecideNext, UnlinkNext, CheckNext, UnwindNext;
    match a
    case DecideFinish(callback) => DecideFrame(s, s.main.r, callback);
    case Unlink => UnlinkFrame(s, s.main.at.r);
    case CheckGroup(callback) => CheckFrame(s, s.main.at.g, callback);
    case _ => UnwindFrame(s);
  }

  lemma PollFrame(s: State, a: PollStep)
    requires PollEnabled(s, a)
    ensures SamePool(s, PollNext(s, a)) && (!a.ShiftResult? ==> SameResults(s, PollNext(s, a)))
  {
    if a.ShiftResult? {
      hide ShiftNext, DecideNext, UnlinkNext, CheckNext, UnwindNext;
      ShiftFrame(s);
    } else {
      hide PollNext;
      if OnlyControl(a) {
        ControlFrame(s, a);
      } else {
        FinishFrame(s, a);
      }
    }
  }

  // ---------------------------------------------------------------- runs

  datatype Step =
    | ByWorker(i: nat, worker: WorkerStep)
    | ByUser(user: UserStep)
    | ByCall(call: CallStep)
    | ByPoll(poll: PollStep)

  predicate Enabled(s: State, a: Step) {
    match a
    case ByWorker(i, b) => i < |s.ws| && WorkerEnabled(s.ws[i], b)
    case ByUser(b) => UserEnabled(s, b)
    case ByCall(b) => CallEnabled(s, b)
    case ByPoll(b) => PollEnabled(s, b)
  }

  ghost function StepTo(s: State, a: Step): State
    requires Enabled(s, a)
  {
    match a
    case ByWorker(i, b) => WorkerNext(s, i, b)
    case ByUser(b) => UserNext(s, b)
    case ByCall(b) => CallNext(s, b)
    case ByPoll(b) => PollNext(s, b)
  }

  /** `steps` is a run from `s`: each step is enabled when its turn comes. */
  ghost predicate Legal(s: State, steps: seq<Step>)
    decreases |steps|
  {
    steps == [] || (Enabled(s, steps[0]) && Legal(StepTo(s, steps[0]), steps[1..]))
  }

  /** The state a run ends in. */
  ghost function Execute(s: State, steps: seq<Step>): State
    requires Legal(s, steps)
    decreases |steps|
  {
    if steps == [] then s else Execute(StepTo(s, steps[0]), steps[1..])
  }

  lemma {:induction false} RunConcat(s: State, a: seq<Step>, b: seq<Step>)
    requires Legal(s, a) && Legal(Execute(s, a), b)
    ensures Legal(s, a + b) && Execute(s, a + b) == Execute(Execute(s, a), b)
    decreases |a|
  {
    hide StepTo, Enabled;
    if a == [] {
      assert a + b == b;
    } else {
      RunConcat(StepTo(s, a[0]), a[1..], b);
      assert (a + b)[0] == a[0] && (a + b)[1..] == a[1..] + b;
    }
  }
}
