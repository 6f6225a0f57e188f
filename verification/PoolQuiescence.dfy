/**
 * Groups inside the pool, and quiescence: when nreqs is zero outside eio_poll, every submitted
 * request is finished and destroyed, unless a delayed group waits for a member nobody submitted.
 */
module PoolQuiescence {
  import opened PoolCounts
  import opened PoolLaws
  import opened PoolState
  import opened RequestQueue

  // ---------------------------------------------------------------- the laws of the group forest

  /** The requests inside eio_finish: none outside it, and the one it works on comes last. */
  ghost predicate HandsLaw(s: State) {
    && (s.main.Finishing? <==> s.hands != [])
    && (s.main.Finishing? && (s.main.at.Callback? || s.main.at.Unlinking?) ==> s.hands[|s.hands| - 1] == s.main.at.r)
  }

  /** A linked member is not destroyed, and inside eio_finish only up to its unlinking. */
  ghost predicate LinkedLaw(s: State) {
    forall m :: m in s.parent ==> LinkedOk(s, m)
  }

  ghost predicate LinkedOk(s: State, m: Id) {
    s.destroyed[m] == 0 && (m in s.hands ==> s.main == Finishing(Callback(m)) || s.main == Finishing(Unlinking(m)))
  }

  ghost predicate BeingChecked(s: State, g: Id) {
    s.main.Finishing? && (s.main.at == FeedTest(g) || (s.main.at.FeedCall? && s.main.at.g == g) ||
      s.main.at == Check(g))
  }

  /** A delayed group has a member, except while grp_dec is looking at it. */
  ghost predicate SettledLaw(s: State) {
    forall d :: d in s.delayed ==> HasMember(s, d) || BeingChecked(s, d)
  }

  ghost predicate ForestLaw(s: State) {
    Ranked(s.parent, s.rank) && HandsLaw(s) && LinkedLaw(s) && SettledLaw(s)
  }

  /**
   * grp_dec looks whether a group is done only after its feeder had its turn: the step before is that of
   * grp_try_feed, which every unlinking of a member leads to.
   */
  lemma FedBeforeChecked(s: State, a: PollStep)
    requires PollEnabled(s, a) && AtCheck(PollNext(s, a).main)
    ensures s.main.Finishing? && (s.main.at.FeedTest? || s.main.at.FeedCall?)
    ensures s.main.at.g == PollNext(s, a).main.at.g
  {
    if a.ShiftResult? {
      ShiftFrame(s);
    } else if !OnlyControl(a) {
      FinishFrame(s, a);
    }
    hide ShiftNext, DecideNext, UnlinkNext, CheckNext, UnwindNext, SamePool, SameResults;
  }

  lemma FedAfterUnlinking(s: State)
    requires PollEnabled(s, Unlink) && s.main.at.r in s.parent
    ensures PollNext(s, Unlink).main == Finishing(FeedTest(s.parent[s.main.at.r]))
  {
  }

  /** Finish callbacks and feeders are user code, which may submit, add to groups and change settings. */
  lemma CallbacksAreUserCode(s: State, a: PollStep)
    requires PollEnabled(s, a)
    ensures a == TestFeed(true) ==> InUserCode(PollNext(s, a))
    ensures a == CheckGroup(true) ==> InUserCode(PollNext(s, a)) || PollNext(s, a).hands == s.hands
    ensures a == DecideFinish(true) ==> InUserCode(PollNext(s, a)) || s.main.r in PollNext(s, a).delayed
  {
    hide HasMember, BestIndex, Remove, ShiftNext, UnlinkNext, UnwindNext;
  }

  // a step that touches nothing the forest laws speak of
  lemma SameForest(s: State, t: State)
    requires ForestLaw(s)
    requires t.parent == s.parent && t.rank == s.rank && t.hands == s.hands && t.destroyed == s.destroyed
    requires t.delayed == s.delayed && (t.main == s.main || !(s.main.Finishing? || t.main.Finishing?))
    ensures ForestLaw(t)
  {
    hide Ranked;
    forall m | m in t.parent
      ensures LinkedOk(t, m)
    {
      assert LinkedOk(s, m);
    }
    forall d | d in t.delayed
      ensures HasMember(t, d) || BeingChecked(t, d)
    {
      if HasMember(s, d) {
        var m :| m in s.parent && s.parent[m] == d;
        assert t.parent[m] == d;
      }
    }
  }

  lemma WorkerForest(s: State, i: nat, a: WorkerStep)
    requires ForestLaw(s) && i < |s.ws| && WorkerEnabled(s.ws[i], a)
    ensures ForestLaw(WorkerNext(s, i, a))
  {
    hide ForestLaw, WorkerNext, WorkerEnabled;
    WorkerFrame(s, i, a);
    SameForest(s, WorkerNext(s, i, a));
  }

  lemma CallForest(s: State, a: CallStep)
    requires ForestLaw(s) && CallEnabled(s, a)
    ensures ForestLaw(CallNext(s, a))
  {
    hide ForestLaw, SignalOk, Wake;
    SameForest(s, CallNext(s, a));
  }

  lemma AddForest(s: State, g: Id, m: Id, rank: map<Id, nat>)
    requires ForestLaw(s) && UserEnabled(s, GrpAdd(g, m, rank))
    ensures ForestLaw(UserNext(s, GrpAdd(g, m, rank)))
  {
    hide Ranked;
    var t := UserNext(s, GrpAdd(g, m, rank));
    forall x | x in t.parent
      ensures LinkedOk(t, x)
    {
      assert x != m ==> LinkedOk(s, x);
    }
    forall d | d in t.delayed
      ensures HasMember(t, d) || BeingChecked(t, d)
    {
      if HasMember(s, d) {
        var x :| x in s.parent && s.parent[x] == d;
        assert t.parent[x] == d;
      }
    }
  }

  lemma UserForest(s: State, a: UserStep)
    requires ForestLaw(s) && UserEnabled(s, a)
    ensures ForestLaw(UserNext(s, a))
  {
    if a.GrpAdd? {
      hide ForestLaw;
      AddForest(s, a.g, a.m, a.rank);
    } else {
      hide ForestLaw, SignalOk, Wake, MayJoin, Ranked;
      SameForest(s, UserNext(s, a));
    }
  }

  lemma DecideForest(s: State, r: Id, callback: bool)
    requires ForestLaw(s) && s.main == Decide(r)
    ensures ForestLaw(DecideNext(s, r, callback))
  {
    hide Ranked;
    var t := DecideNext(s, r, callback);
    forall m | m in t.parent
      ensures LinkedOk(t, m)
    {
      assert LinkedOk(s, m);
    }
    forall d | d in t.delayed
      ensures HasMember(t, d) || BeingChecked(t, d)
    {
      assert HasMember(s, d);
      var m :| m in s.parent && s.parent[m] == d;
      assert t.parent[m] == d;
    }
  }

  lemma CheckForest(s: State, g: Id, callback: bool)
    requires ForestLaw(s) && s.main == Finishing(Check(g))
    ensures ForestLaw(CheckNext(s, g, callback))
  {
    hide Ranked;
    var t := CheckNext(s, g, callback);
    forall m | m in t.parent
      ensures LinkedOk(t, m)
    {
      assert LinkedOk(s, m);
    }
    forall d | d in t.delayed
      ensures HasMember(t, d) || BeingChecked(t, d)
    {
      assert HasMember(s, d);
      var m :| m in s.parent && s.parent[m] == d;
      assert t.parent[m] == d;
    }
  }

  lemma UnlinkForest(s: State, r: Id)
    requires ForestLaw(s) && s.main == Finishing(Unlinking(r))
    ensures ForestLaw(UnlinkNext(s, r))
  {
    var t := UnlinkNext(s, r);
    forall m | m in t.parent
      ensures LinkedOk(t, m)
    {
      assert LinkedOk(s, m);
    }
    forall d | d in t.delayed
      ensures HasMember(t, d) || BeingChecked(t, d)
    {
      assert HasMember(s, d);
      var m :| m in s.parent && s.parent[m] == d;
      if m != r {
        assert t.parent[m] == d;
      }
    }
  }

  lemma UnwindForest(s: State)
    requires ForestLaw(s) && s.main == Finishing(Unwind) && s.hands != []
    ensures ForestLaw(UnwindNext(s))
  {
    hide Ranked;
    var t := UnwindNext(s);
    forall m | m in t.parent
      ensures LinkedOk(t, m)
    {
      assert LinkedOk(s, m);
      assert m !in s.hands;
    }
    forall d | d in t.delayed
      ensures HasMember(t, d) || BeingChecked(t, d)
    {
      assert HasMember(s, d);
      var m :| m in s.parent && s.parent[m] == d;
      assert t.parent[m] == d;
    }
  }

  // the steps inside eio_finish that only move the program counter
  lemma ControlForest(s: State, a: PollStep)
    requires ForestLaw(s) && PollEnabled(s, a) && (a.CallbackReturns? || a.TestFeed? || a.FeedReturns?)
    ensures ForestLaw(PollNext(s, a))
  {
    hide Ranked;
    var t := PollNext(s, a);
    forall m | m in t.parent
      ensures LinkedOk(t, m)
    {
      assert LinkedOk(s, m);
    }
    forall d | d in t.delayed
      ensures HasMember(t, d) || BeingChecked(t, d)
    {
      if HasMember(s, d) {
        var m :| m in s.parent && s.parent[m] == d;
        assert t.parent[m] == d;
      }
    }
  }

  lemma PollForest(s: State, a: PollStep)
    requires ForestLaw(s) && PollEnabled(s, a)
    ensures ForestLaw(PollNext(s, a))
  {
    hide ForestLaw, BestIndex, Remove, UnlinkNext, UnwindNext, DecideNext, CheckNext;
    match a
    case DecideFinish(callback) => DecideForest(s, s.main.r, callback);
    case CheckGroup(callback) => CheckForest(s, s.main.at.g, callback);
    case Unlink => UnlinkForest(s, s.main.at.r);
    case UnwindHand => UnwindForest(s);
    case CallbackReturns => ControlForest(s, a);
    case TestFeed(_) => ControlForest(s, a);
    case FeedReturns(_) => ControlForest(s, a);
    case _ => SameForest(s, PollNext(s, a));
  }

  /** Every step keeps the laws of the forest. */
  lemma ForestStep(s: State, a: Step)
    requires ForestLaw(s) && Enabled(s, a)
    ensures ForestLaw(StepTo(s, a))
  {
    hide ForestLaw, WorkerNext, UserNext, CallNext, PollNext, WorkerEnabled, UserEnabled, CallEnabled, PollEnabled;
    match a
    case ByWorker(i, b) => WorkerForest(s, i, b);
    case ByUser(b) => UserForest(s, b);
    case ByCall(b) => CallForest(s, b);
    case ByPoll(b) => PollForest(s, b);
  }

  // ---------------------------------------------------------------- quiescence

  /** Outside eio_poll, with no call under way. */
  predicate Outside(s: State) {
    s.call == NoCall && (s.main == Out || s.main == Test || s.main == Block)
  }

  lemma OnlyDelayed(s: State, x: Id)
    requires RequestsLaw(s) && HandsLaw(s) && Outside(s) && s.nreqs == 0
    ensures Places(s, x) == Bool(x in s.delayed)
  {
    hide Count, Num, Items;
    NumLe(s.reqq, Token);
    NumOther(s.reqq, Token, Req(x));
    NumLe(s.resq, x);
    CountLe(s.ws, Holding(Req(x)), Working);
  }

  /** Below every delayed group that nothing else holds up there is a member nobody submitted. */
  lemma {:induction false} WaitsFor(s: State, d: Id) returns (m: Id)
    requires RequestsLaw(s) && ForestLaw(s) && Conserved(s) && Outside(s) && s.nreqs == 0 && d in s.delayed
    ensures m in s.parent && s.parent[m] in s.delayed && m !in s.submitted
    decreases if d in s.rank then s.rank[d] else 0
  {
    hide RequestsLaw, Places;
    assert HasMember(s, d);
    m :| m in s.parent && s.parent[m] == d;
    if m in s.submitted {
      OnlyDelayed(s, m);
      assert InOnePlace(s, m) && LinkedOk(s, m);
      m := WaitsFor(s, m);
    }
  }

  ghost predicate AllDestroyed(s: State) {
    forall x :: x in s.submitted ==> s.destroyed[x] == 1
  }

  /**
   * At nreqs == 0 outside eio_poll every submitted request is destroyed, exactly once, if and only
   * if no delayed group has a member that was never submitted.
   */
  lemma QuiescentIff(s: State)
    requires RequestsLaw(s) && ForestLaw(s) && Conserved(s) && Outside(s) && s.nreqs == 0
    ensures AllDestroyed(s) <==> forall m :: m in s.parent && s.parent[m] in s.delayed ==> m in s.submitted
  {
    hide RequestsLaw, ForestLaw, Places;
    assert HandsLaw(s) by {
      QuiescentHands(s);
    }
    forall x
      ensures InOnePlace(s, x) && Places(s, x) == Bool(x in s.delayed)
    {
      OnlyDelayed(s, x);
    }
    if d :| d in s.delayed {
      var m := WaitsFor(s, d);
      assert InOnePlace(s, d);
      assert d in s.submitted && s.destroyed[d] == 0;
    } else {
      forall x | x in s.submitted
        ensures s.destroyed[x] == 1
      {
        assert InOnePlace(s, x);
      }
    }
  }

  lemma QuiescentHands(s: State)
    requires ForestLaw(s)
    ensures HandsLaw(s)
  {
  }
}
