/**
 * Runs that show why the promises of PoolRuns have conditions. Three in which a timed wait runs out: two
 * in which flush hangs with a request in the queue, and one in which the thread counter wraps around. And
 * one in which flush returns while a group still waits for a member that nobody submitted.
 */
module PoolCounterexamples {
  import opened PoolRuns
  import opened PoolState
  import opened PoolWake
  import opened RequestQueue
  import opened Requests

  // one request went through the only worker, which waits; its result was not polled yet
  function Idling(): State {
    INIT.(made := {0}, submitted := {0}, resq := [Entry(0, 4)], ws := [TimedWait], nreqs := 1, npending := 1,
          started := 1, idle := 1, pipe := 1, polls := [Want])
  }

  lemma ThenTo(s: State, steps: seq<Step>, a: Step, t: State) returns (more: seq<Step>)
    requires Legal(s, steps) && Enabled(Execute(s, steps), a) && t == StepTo(Execute(s, steps), a)
    ensures Legal(s, more) && Execute(s, more) == t && more == steps + [a]
  {
    more := Then(s, steps, a);
  }

  /** etp_maybe_start_thread where the threads that count are enough for the requests. */
  lemma NoThreadStarted(steps: seq<Step>) returns (more: seq<Step>)
    requires Legal(INIT, steps)
    requires var s := Execute(INIT, steps);
             && s.call == StartCheck && 0 <= s.started < s.wanted <= LIMIT
             && 0 <= s.npending <= LIMIT && 0 <= s.nreqs <= LIMIT && s.nreqs <= s.started + s.npending
    ensures Legal(INIT, more) && Execute(INIT, more) == Execute(INIT, steps).(call := NoCall)
  {
    hide Legal, Execute;
    var s := Execute(INIT, steps);
    EnoughThreads(s);
    hide CallNext, U32, S32;
    more := Then(INIT, steps, ByCall(CheckThreads));
    more := Then(INIT, more, ByCall(ReadThreads));
    more := Then(INIT, more, ByCall(ReadPending));
    more := Then(INIT, more, ByCall(DecideStart));
  }

  lemma EnoughThreads(s: State)
    requires s.call == StartCheck && 0 <= s.started < s.wanted <= LIMIT
    requires 0 <= s.npending <= LIMIT && 0 <= s.nreqs <= LIMIT && s.nreqs <= s.started + s.npending
    ensures CallNext(s, CheckThreads) == s.(call := StartReads(None, None))
    ensures CallNext(s.(call := StartReads(None, None)), ReadThreads) == s.(call := StartReads(Some(s.started), None))
    ensures CallNext(s.(call := StartReads(Some(s.started), None)), ReadPending) ==
      s.(call := StartReads(Some(s.started), Some(s.npending)))
    ensures CallNext(s.(call := StartReads(Some(s.started), Some(s.npending))), DecideStart) == s.(call := NoCall)
  {
  }

  /** eio_poll takes the only result off its queue. */
  lemma OnlyResultShifted(steps: seq<Step>, x: Id) returns (more: seq<Step>)
    requires Legal(INIT, steps)
    requires var s := Execute(INIT, steps); s.main == Shift && s.call == NoCall && s.resq == [Entry(x, 4)]
    ensures Legal(INIT, more)
    ensures var s := Execute(INIT, steps);
            Execute(INIT, more) == s.(main := Decide(x), resq := [], npending := s.npending - 1, pipe := s.pipe - 1,
                                      polls := s.polls + [Done], nreqs := s.nreqs - 1)
  {
    hide Legal, Execute;
    var s := Execute(INIT, steps);
    assert BestIndex(s.resq) == 0 && Remove(s.resq, 0) == [];
    s := s.(main := Dec(x), resq := [], npending := s.npending - 1, pipe := s.pipe - 1, polls := s.polls + [Done]);
    more := ThenTo(INIT, steps, ByPoll(ShiftResult), s);
    s := s.(main := Decide(x), nreqs := s.nreqs - 1);
    more := ThenTo(INIT, more, ByPoll(DecRequests), s);
  }

  /** eio_finish of a request without callback that is neither a group nor in one. */
  lemma PlainFinished(steps: seq<Step>, x: Id) returns (more: seq<Step>)
    requires Legal(INIT, steps)
    requires var s := Execute(INIT, steps);
             s.main == Decide(x) && s.call == NoCall && x !in s.groups && x !in s.parent && s.hands == []
    ensures Legal(INIT, more)
    ensures var s := Execute(INIT, steps);
            Execute(INIT, more) == s.(main := After, destroyed := s.destroyed + multiset{x})
  {
    hide Legal, Execute, HasMember;
    var s := Execute(INIT, steps);
    s := s.(main := Finishing(Unlinking(x)), hands := [x]);
    more := ThenTo(INIT, steps, ByPoll(DecideFinish(false)), s);
    s := s.(main := Finishing(Unwind));
    more := ThenTo(INIT, more, ByPoll(Unlink), s);
    s := s.(main := After, hands := [], destroyed := s.destroyed + multiset{x});
    more := ThenTo(INIT, more, ByPoll(UnwindHand), s);
  }

  const SELF: Step := ByWorker(0, Advance)

  lemma FirstRequest() returns (steps: seq<Step>)
    ensures Legal(INIT, steps)
    ensures Execute(INIT, steps) == INIT.(made := {0}, submitted := {0}, reqq := [Entry(Req(0), 4)],
                                          nreqs := 1, nready := 1, call := StartCheck)
  {
    hide Legal, Execute;
    assert ClampPri(0) == 4;
    var s := INIT;
    steps := Nothing(INIT);
    s := s.(made := {0});
    steps := ThenTo(INIT, steps, ByUser(New(0, false)), s);
    s := s.(submitted := {0}, reqq := [Entry(Req(0), 4)], nreqs := 1, nready := 1, call := StartCheck);
    steps := ThenTo(INIT, steps, ByUser(Submit(0, 0, {})), s);
  }

  lemma FirstThread() returns (steps: seq<Step>)
    ensures Legal(INIT, steps)
    ensures Execute(INIT, steps) == INIT.(made := {0}, submitted := {0}, reqq := [Entry(Req(0), 4)], ws := [Ready],
                                          nreqs := 1, nready := 1, started := 1)
  {
    hide Legal, Execute;
    steps := FirstRequest();
    var s := Execute(INIT, steps);
    s := s.(call := StartReads(None, None));
    steps := ThenTo(INIT, steps, ByCall(CheckThreads), s);
    s := s.(call := StartReads(Some(0), None));
    steps := ThenTo(INIT, steps, ByCall(ReadThreads), s);
    s := s.(call := StartReads(Some(0), Some(0)));
    steps := ThenTo(INIT, steps, ByCall(ReadPending), s);
    s := s.(call := StartThread);
    steps := ThenTo(INIT, steps, ByCall(DecideStart), s);
    s := s.(call := NoCall, ws := [Ready], started := 1);
    steps := ThenTo(INIT, steps, ByCall(CreateThread(true)), s);
  }

  lemma Nothing(s: State) returns (steps: seq<Step>)
    ensures steps == [] && Legal(s, steps) && Execute(s, steps) == s
  {
    steps := [];
  }

  lemma ToIdling() returns (steps: seq<Step>)
    ensures Legal(INIT, steps) && Execute(INIT, steps) == Idling()
  {
    hide Legal, Execute;
    steps := FirstThread();
    var s := Execute(INIT, steps);
    assert BestIndex(s.reqq) == 0 && Remove(s.reqq, 0) == [];
    s := s.(reqq := [], ws := [Got(Entry(Req(0), 4))], nready := 0);
    steps := ThenTo(INIT, steps, SELF, s);
    s := s.(ws := [Ready], resq := [Entry(0, 4)], npending := 1, pipe := 1, polls := [Want]);
    steps := ThenTo(INIT, steps, SELF, s);
    s := s.(ws := [TimedWait], idle := 1);
    steps := ThenTo(INIT, steps, SELF, s);
  }

  // its wait runs out, and a request is queued before it waits again
  lemma WaitOver() returns (steps: seq<Step>)
    ensures Legal(INIT, steps)
    ensures Execute(INIT, steps) == Idling().(made := {0, 1}, ws := [TimedOut])
  {
    hide Legal, Execute;
    steps := ToIdling();
    var s := Idling();
    s := s.(ws := [TimedOut]);
    steps := ThenTo(INIT, steps, ByWorker(0, Expire), s);
    s := s.(made := {0, 1});
    steps := ThenTo(INIT, steps, ByUser(New(1, false)), s);
  }

  lemma QueuedTooLate() returns (steps: seq<Step>)
    ensures Legal(INIT, steps)
    ensures Execute(INIT, steps) == Idling().(made := {0, 1}, submitted := {0, 1}, reqq := [Entry(Req(1), 4)],
                                              nreqs := 2, nready := 1, ws := [UntimedWait], call := StartCheck)
  {
    hide Legal, Execute;
    assert ClampPri(0) == 4;
    steps := WaitOver();
    var s := Execute(INIT, steps);
    assert s.ws[0] == TimedOut && Wake(s.ws, {}) == s.ws;
    s := s.(submitted := {0, 1}, reqq := [Entry(Req(1), 4)], nreqs := 2, nready := 1, call := StartCheck);
    steps := ThenTo(INIT, steps, ByUser(Submit(1, 0, {})), s);
    s := s.(ws := [UntimedWait]);
    steps := ThenTo(INIT, steps, SELF, s);
  }

  // no second thread is started
  lemma Rewaiting() returns (steps: seq<Step>)
    ensures Legal(INIT, steps)
    ensures Execute(INIT, steps) == Idling().(made := {0, 1}, submitted := {0, 1}, reqq := [Entry(Req(1), 4)],
                                              nreqs := 2, nready := 1, ws := [UntimedWait])
  {
    hide Legal, Execute;
    steps := QueuedTooLate();
    var s := Execute(INIT, steps);
    steps := NoThreadStarted(steps);
    s := s.(call := NoCall);
  }

  // flush finds a result
  lemma FlushStarts() returns (steps: seq<Step>)
    ensures Legal(INIT, steps)
    ensures Execute(INIT, steps) == Idling().(made := {0, 1}, submitted := {0, 1}, reqq := [Entry(Req(1), 4)],
                                              nreqs := 2, nready := 1, ws := [UntimedWait], flushing := true,
                                              main := Shift)
  {
    hide Legal, Execute;
    steps := Rewaiting();
    var s := Execute(INIT, steps);
    s := s.(main := Test, flushing := true);
    steps := ThenTo(INIT, steps, ByUser(StartFlush), s);
    s := s.(main := Block);
    steps := ThenTo(INIT, steps, ByPoll(FlushTest), s);
    s := s.(main := Top);
    steps := ThenTo(INIT, steps, ByPoll(Unblock(false)), s);
    s := s.(main := Shift, call := StartCheck);
    steps := ThenTo(INIT, steps, ByPoll(MaybeStart), s);
    steps := NoThreadStarted(steps);
    s := s.(call := NoCall);
  }

  // flush polls the first request
  lemma FlushPolls() returns (steps: seq<Step>)
    ensures Legal(INIT, steps)
    ensures Execute(INIT, steps) == INIT.(made := {0, 1}, submitted := {0, 1}, reqq := [Entry(Req(1), 4)],
      ws := [UntimedWait], nreqs := 1, nready := 1, started := 1, idle := 1, polls := [Want, Done],
      flushing := true, destroyed := multiset{0}, main := Top)
  {
    hide Legal, Execute;
    steps := FlushStarts();
    var s := Execute(INIT, steps);
    steps := OnlyResultShifted(steps, 0);
    steps := PlainFinished(steps, 0);
    s := s.(main := After, resq := [], npending := 0, pipe := 0, polls := [Want, Done], nreqs := 1,
      destroyed := multiset{0});
    assert Execute(INIT, steps) == s;
    s := s.(main := Top);
    steps := ThenTo(INIT, steps, ByPoll(Next(true)), s);
  }

  /**
   * Waiting again without looking at the queue can hang flush: a request is queued, the pipe is
   * empty, and the only worker is blocked, without a timeout.
   */
  lemma FlushCanHang() returns (steps: seq<Step>)
    ensures Legal(INIT, steps) && FlushBlocked(Execute(INIT, steps))
    ensures Execute(INIT, steps).reqq != [] && Execute(INIT, steps).ws == [UntimedWait]
  {
    hide Legal, Execute;
    steps := FlushPolls();
    var s := Execute(INIT, steps);
    s := s.(main := Shift, call := StartCheck);
    steps := ThenTo(INIT, steps, ByPoll(MaybeStart), s);
    steps := NoThreadStarted(steps);
    s := s.(call := NoCall);
    s := s.(main := Test);
    steps := ThenTo(INIT, steps, ByPoll(ShiftResult), s);
    s := s.(main := Block);
    steps := ThenTo(INIT, steps, ByPoll(FlushTest), s);
  }

  // ---------------------------------------------------------------- the last worker leaves

  // the state once the first request is polled
  function Polled(): State {
    INIT.(made := {0}, submitted := {0}, ws := [TimedWait], started := 1, idle := 1, polls := [Want, Done],
          destroyed := multiset{0})
  }

  lemma ToShift() returns (steps: seq<Step>)
    ensures Legal(INIT, steps) && Execute(INIT, steps) == Idling().(main := Shift)
  {
    hide Legal, Execute;
    steps := ToIdling();
    var s := Idling();
    s := s.(main := Top);
    steps := ThenTo(INIT, steps, ByUser(StartPoll), s);
    s := s.(main := Shift, call := StartCheck);
    steps := ThenTo(INIT, steps, ByPoll(MaybeStart), s);
    steps := NoThreadStarted(steps);
    s := s.(call := NoCall);
  }

  lemma ToPolled() returns (steps: seq<Step>)
    ensures Legal(INIT, steps) && Execute(INIT, steps) == Polled()
  {
    hide Legal, Execute;
    steps := ToShift();
    var s := Execute(INIT, steps);
    steps := OnlyResultShifted(steps, 0);
    steps := PlainFinished(steps, 0);
    s := s.(main := After, resq := [], npending := 0, pipe := 0, polls := [Want, Done], nreqs := 0,
      destroyed := multiset{0});
    assert Execute(INIT, steps) == s;
    s := s.(main := Out);
    steps := ThenTo(INIT, steps, ByPoll(Next(false)), s);
  }

  // the worker's wait runs out with nothing queued, and it decides to leave
  lemma LastIsLeaving() returns (steps: seq<Step>)
    ensures Legal(INIT, steps)
    ensures Execute(INIT, steps) == Polled().(maxIdle := 0, ws := [Leaving], idle := 0, made := {0, 1})
  {
    hide Legal, Execute;
    steps := ToPolled();
    var s := Polled();
    s := s.(maxIdle := 0);
    steps := ThenTo(INIT, steps, ByUser(SetMaxIdle(0)), s);
    s := s.(ws := [TimedOut]);
    steps := ThenTo(INIT, steps, ByWorker(0, Expire), s);
    s := s.(ws := [Leaving], idle := 0);
    steps := ThenTo(INIT, steps, SELF, s);
    s := s.(made := {0, 1});
    steps := ThenTo(INIT, steps, ByUser(New(1, false)), s);
  }

  lemma QueuedWhileLeaving() returns (steps: seq<Step>)
    ensures Legal(INIT, steps)
    ensures Execute(INIT, steps) == Polled().(maxIdle := 0, ws := [Leaving], idle := 0, made := {0, 1},
      submitted := {0, 1}, reqq := [Entry(Req(1), 4)], nreqs := 1, nready := 1, call := StartCheck)
  {
    hide Legal, Execute;
    assert ClampPri(0) == 4;
    steps := LastIsLeaving();
    var s := Execute(INIT, steps);
    assert s.ws[0] == Leaving && Wake(s.ws, {}) == s.ws;
    s := s.(submitted := {0, 1}, reqq := [Entry(Req(1), 4)], nreqs := 1, nready := 1, call := StartCheck);
    steps := ThenTo(INIT, steps, ByUser(Submit(1, 0, {})), s);
  }

  // it still counts as a thread when the next request is submitted
  lemma CountsAsThread() returns (steps: seq<Step>)
    ensures Legal(INIT, steps)
    ensures Execute(INIT, steps) == Polled().(maxIdle := 0, ws := [Leaving], idle := 0, made := {0, 1},
      submitted := {0, 1}, reqq := [Entry(Req(1), 4)], nreqs := 1, nready := 1)
  {
    hide Legal, Execute;
    steps := QueuedWhileLeaving();
    var s := Execute(INIT, steps);
    steps := NoThreadStarted(steps);
    s := s.(call := NoCall);
  }

  /**
   * Between deciding to leave and decrementing `started` a worker counts as a thread that could take a
   * request. If it is the last one, the request stays in the queue without any worker, and flush hangs.
   */
  lemma LastWorkerCanLeave() returns (steps: seq<Step>)
    ensures Legal(INIT, steps) && FlushBlocked(Execute(INIT, steps))
    ensures Execute(INIT, steps).reqq == [Entry(Req(1), 4)] && Execute(INIT, steps).ws == [Gone]
  {
    hide Legal, Execute;
    steps := CountsAsThread();
    var s := Execute(INIT, steps);
    s := s.(started := 0, ws := [Quitting]);
    steps := ThenTo(INIT, steps, SELF, s);
    s := s.(ws := [Gone]);
    steps := ThenTo(INIT, steps, SELF, s);
    s := s.(main := Test, flushing := true);
    steps := ThenTo(INIT, steps, ByUser(StartFlush), s);
    s := s.(main := Block);
    steps := ThenTo(INIT, steps, ByPoll(FlushTest), s);
  }

  // ---------------------------------------------------------------- the counter wraps

  // the idle worker's wait runs out, and it decides to leave
  lemma OneLeaves() returns (steps: seq<Step>)
    ensures Legal(INIT, steps)
    ensures Execute(INIT, steps) == Idling().(maxIdle := 0, ws := [Leaving], idle := 0)
  {
    hide Legal, Execute;
    steps := ToIdling();
    var s := Idling();
    s := s.(maxIdle := 0);
    steps := ThenTo(INIT, steps, ByUser(SetMaxIdle(0)), s);
    s := s.(ws := [TimedOut]);
    steps := ThenTo(INIT, steps, ByWorker(0, Expire), s);
    s := s.(ws := [Leaving], idle := 0);
    steps := ThenTo(INIT, steps, SELF, s);
  }

  // meanwhile etp_set_max_parallel asks one worker to quit
  lemma OneToAsk() returns (steps: seq<Step>)
    ensures Legal(INIT, steps)
    ensures Execute(INIT, steps) == Idling().(maxIdle := 0, ws := [Leaving], idle := 0, wanted := 0, call := TrimPush)
  {
    hide Legal, Execute;
    steps := OneLeaves();
    var s := Execute(INIT, steps);
    s := s.(wanted := 0, call := TrimTest);
    steps := ThenTo(INIT, steps, ByUser(SetMaxParallel(0)), s);
    s := s.(call := TrimPush);
    steps := ThenTo(INIT, steps, ByCall(TestStarted), s);
  }

  lemma OneAsked() returns (steps: seq<Step>)
    ensures Legal(INIT, steps)
    ensures Execute(INIT, steps) ==
      Idling().(maxIdle := 0, ws := [Leaving], idle := 0, wanted := 0, reqq := [Entry(Token, TOKEN_PRI)], started := 0)
  {
    hide Legal, Execute;
    steps := OneToAsk();
    var s := Execute(INIT, steps);
    assert s.ws[0] == Leaving && Wake(s.ws, {}) == s.ws;
    s := s.(reqq := [Entry(Token, TOKEN_PRI)], call := TrimDec);
    steps := ThenTo(INIT, steps, ByCall(PushToken({})), s);
    s := s.(started := 0, call := TrimTest);
    steps := ThenTo(INIT, steps, ByCall(TrimStarted), s);
    s := s.(call := NoCall);
    steps := ThenTo(INIT, steps, ByCall(TestStarted), s);
  }

  lemma SubtractedTwice() returns (steps: seq<Step>)
    ensures Legal(INIT, steps)
    ensures Execute(INIT, steps) ==
      Idling().(maxIdle := 0, ws := [Gone], idle := 0, wanted := 0, reqq := [Entry(Token, TOKEN_PRI)], started := -1)
  {
    hide Legal, Execute;
    steps := OneAsked();
    var s := Execute(INIT, steps);
    s := s.(started := -1, ws := [Quitting]);
    steps := ThenTo(INIT, steps, SELF, s);
    s := s.(ws := [Gone]);
    steps := ThenTo(INIT, steps, SELF, s);
  }

  // four threads are wanted again
  lemma WantedAgain() returns (steps: seq<Step>)
    ensures Legal(INIT, steps)
    ensures Execute(INIT, steps) == Idling().(maxIdle := 0, ws := [Gone], idle := 0, reqq := [Entry(Token, TOKEN_PRI)],
                                              started := -1, made := {0, 1})
  {
    hide Legal, Execute;
    steps := SubtractedTwice();
    var s := Execute(INIT, steps);
    s := s.(wanted := 4);
    steps := ThenTo(INIT, steps, ByUser(SetMinParallel(4)), s);
    s := s.(made := {0, 1});
    steps := ThenTo(INIT, steps, ByUser(New(1, false)), s);
  }

  /**
   * A worker that leaves after a timeout while etp_set_max_parallel asks it to quit is subtracted
   * twice: `started` wraps around, and although four threads are wanted and none is left, submitting
   * a request starts none.
   */
  lemma StartedCanWrap() returns (steps: seq<Step>)
    ensures Legal(INIT, steps)
    ensures var s := Execute(INIT, steps);
            && InUserCode(s) && U32(s.started) == 0xffff_ffff && s.wanted == 4
            && Entry(Req(1), 4) in s.reqq && s.ws == [Gone]
  {
    hide Legal, Execute;
    assert ClampPri(0) == 4;
    steps := WantedAgain();
    var s := Execute(INIT, steps);
    assert s.ws[0] == Gone && Wake(s.ws, {}) == s.ws;
    s := s.(submitted := {0, 1}, reqq := [Entry(Token, TOKEN_PRI), Entry(Req(1), 4)], nreqs := 2, nready := 1,
      call := StartCheck);
    steps := ThenTo(INIT, steps, ByUser(Submit(1, 0, {})), s);
    s := s.(call := NoCall);
    steps := ThenTo(INIT, steps, ByCall(CheckThreads), s);
    assert s.reqq[1] == Entry(Req(1), 4);
  }

  // ---------------------------------------------------------------- a member that is never submitted

  function OneMember(): map<Id, Id> { map[1 := 0] }

  function Heights(): map<Id, nat> { map[0 := 1, 1 := 0] }

  // the state in which the group 0 is queued, and its member 1 is not submitted
  function GroupQueued(): State {
    INIT.(made := {0, 1}, groups := {0}, parent := OneMember(), rank := Heights(), submitted := {0},
          nreqs := 1, npending := 1, resq := [Entry(0, 4)], pipe := 1, polls := [Want])
  }

  lemma GroupMade() returns (steps: seq<Step>)
    ensures Legal(INIT, steps)
    ensures Execute(INIT, steps) ==
      INIT.(made := {0, 1}, groups := {0}, parent := OneMember(), rank := Heights())
  {
    hide Legal, Execute;
    var s := INIT;
    steps := Nothing(INIT);
    s := s.(made := {0}, groups := {0});
    steps := ThenTo(INIT, steps, ByUser(New(0, true)), s);
    s := s.(made := {0, 1});
    steps := ThenTo(INIT, steps, ByUser(New(1, false)), s);
    s := s.(parent := OneMember(), rank := Heights());
    steps := ThenTo(INIT, steps, ByUser(GrpAdd(0, 1, Heights())), s);
  }

  lemma GroupSubmitted() returns (steps: seq<Step>)
    ensures Legal(INIT, steps)
    ensures Execute(INIT, steps) == INIT.(made := {0, 1}, groups := {0}, parent := OneMember(), rank := Heights(),
                                          submitted := {0}, nreqs := 1, call := PushGroup(0, 4))
  {
    hide Legal, Execute, OneMember, Heights, Ranked, MayJoin, HasMember;
    assert ClampPri(0) == 4;
    steps := GroupMade();
    var s := Execute(INIT, steps);
    s := s.(submitted := {0}, nreqs := 1, call := PushGroup(0, 4));
    steps := ThenTo(INIT, steps, ByUser(Submit(0, 0, {})), s);
  }

  lemma ToGroupQueued() returns (steps: seq<Step>)
    ensures Legal(INIT, steps) && Execute(INIT, steps) == GroupQueued()
  {
    hide Legal, Execute, OneMember, Heights, Ranked, MayJoin, HasMember;
    steps := GroupSubmitted();
    var s := Execute(INIT, steps);
    s := s.(call := NoCall, npending := 1, resq := [Entry(0, 4)], pipe := 1, polls := [Want]);
    steps := ThenTo(INIT, steps, ByCall(PushGroupResult), s);
  }

  lemma GroupAwaited() returns (steps: seq<Step>)
    ensures Legal(INIT, steps)
    ensures Execute(INIT, steps) == GroupQueued().(flushing := true, main := Shift)
  {
    hide Legal, Execute, OneMember, Heights, Ranked, MayJoin, HasMember;
    steps := ToGroupQueued();
    var s := GroupQueued();
    s := s.(main := Test, flushing := true);
    steps := ThenTo(INIT, steps, ByUser(StartFlush), s);
    s := s.(main := Block);
    steps := ThenTo(INIT, steps, ByPoll(FlushTest), s);
    s := s.(main := Top);
    steps := ThenTo(INIT, steps, ByPoll(Unblock(false)), s);
    s := s.(main := Shift, call := StartCheck);
    steps := ThenTo(INIT, steps, ByPoll(MaybeStart), s);
    steps := NoThreadStarted(steps);
    s := s.(call := NoCall);
  }

  lemma GroupDelayed() returns (steps: seq<Step>)
    ensures Legal(INIT, steps)
    ensures Execute(INIT, steps) == GroupQueued().(flushing := true, main := Top, resq := [], npending := 0, nreqs := 0,
                                                   pipe := 0, polls := [Want, Done], delayed := {0})
  {
    hide Legal, Execute;
    steps := GroupAwaited();
    var s := Execute(INIT, steps);
    assert BestIndex(s.resq) == 0 && Remove(s.resq, 0) == [];
    s := s.(main := Dec(0), resq := [], npending := 0, pipe := 0, polls := [Want, Done]);
    steps := ThenTo(INIT, steps, ByPoll(ShiftResult), s);
    s := s.(main := Decide(0), nreqs := 0);
    steps := ThenTo(INIT, steps, ByPoll(DecRequests), s);
    assert s.parent[1] == 0 && HasMember(s, 0);
    hide OneMember, Heights, HasMember;
    s := s.(main := Top, delayed := {0});
    steps := ThenTo(INIT, steps, ByPoll(DecideFinish(true)), s);
  }

  /** nreqs does not count a delayed group: flush can return before the group has finished. */
  lemma FlushCanLeaveGroup() returns (steps: seq<Step>)
    ensures Legal(INIT, steps)
    ensures var s := Execute(INIT, steps);
            s.main == Out && s.call == NoCall && s.nreqs == 0 && 0 in s.submitted && 0 in s.delayed && 0 !in s.destroyed
  {
    hide Legal, Execute, OneMember, Heights, Ranked, MayJoin, HasMember;
    steps := GroupDelayed();
    var s := Execute(INIT, steps);
    s := s.(main := Shift, call := StartCheck);
    steps := ThenTo(INIT, steps, ByPoll(MaybeStart), s);
    steps := NoThreadStarted(steps);
    s := s.(call := NoCall);
    s := s.(main := Test);
    steps := ThenTo(INIT, steps, ByPoll(ShiftResult), s);
    s := s.(main := Out, flushing := false);
    steps := ThenTo(INIT, steps, ByPoll(FlushTest), s);
  }
}
