/**
 * Groups and the life of a request after it was polled: eio_grp_add, eio_cancel, the feeder, and
 * the cascade eio_finish -> grp_dec -> eio_finish, with user callbacks in the middle.
 */
module Groups {
  import opened Requests
  import opened GroupHistory
  import opened GroupForest
  import opened GroupFeeding

  /** A limit compared with a size: the comparison is unsigned. */
  function AsSize(limit: int): (n: nat) {
    limit % 0x1_0000_0000_0000_0000
  }

  /** A limit of the C type long is itself if it is not negative, and more than any size otherwise. */
  lemma AsSizeMeans(limit: int, size: nat)
    requires -0x8000_0000_0000_0000 <= limit < 0x8000_0000_0000_0000 && size < 0x8000_0000_0000_0000
    ensures size < AsSize(limit) <==> limit < 0 || size < limit
  {
    if limit < 0 {
      assert AsSize(limit) == limit + 0x1_0000_0000_0000_0000;
    }
  }

  /** Full, cancelled, or without a feeder: nothing is left to feed. */
  predicate Served(g: Request)
    reads g
  {
    g.size >= AsSize(g.int2) || g.cancelled || !g.hasFeed
  }

  datatype Node = Node(grp: Request?, prev: Request?, next: Request?)

  ghost function NodesOf(list: seq<Request>): seq<Node>
    reads list
  {
    seq(|list|, i requires 0 <= i < |list| reads list => Node(list[i].grp, list[i].grpPrev, list[i].grpNext))
  }

  /** `list` is the doubly linked member list of `g`. */
  ghost predicate ListLinks(list: seq<Request>, g: Request)
    reads g, list
  {
    Linked(list, g, g.grpFirst, NodesOf(list))
  }

  ghost predicate Linked(list: seq<Request>, g: Request, first: Request?, nodes: seq<Node>) {
    && |nodes| == |list|
    && first == (if list == [] then null else list[0])
    && (forall i :: 0 <= i < |list| ==>
          nodes[i] == Node(g, if i == 0 then null else list[i - 1], if i == |list| - 1 then null else list[i + 1]))
  }

  /** The fields of a live request say what the forest says. */
  ghost predicate FieldsOk(f: Forest, r: Request)
    requires r in f.lists
    reads r
  {
    FieldsMatch(f, r, r.size, r.int1, r.cancelled, r.grp)
  }

  ghost predicate FieldsMatch(f: Forest, r: Request, size: int, int1: int, cancelled: bool, grp: Request?)
    requires r in f.lists
  {
    && (cancelled <==> Flagged(r) in f.log)
    && (r.isGroup ==> size == |f.lists[r]| && (int1 == 0 || int1 == 1))
    && (!r.isGroup ==> f.lists[r] == [])
    && (r in f.delayed <==> r.isGroup && int1 == 1 && Finishing(r) !in f.log)
    && (grp == null ==> !WasAdded(f.log, r))
    && (grp != null && Unlinked(r) !in f.log ==> grp in f.live && grp in f.lists && r in f.lists[grp])
  }

  ghost predicate AllFields(f: Forest)
    reads f.live
  {
    forall r :: r in f.live ==> r in f.lists && FieldsOk(f, r)
  }

  ghost predicate MembersAllocated(f: Forest) {
    forall g :: g in f.live ==> g in f.lists && forall m :: m in f.lists[g] ==> m in f.live
  }

  ghost predicate AllLinks(f: Forest)
    reads f.live
  {
    MembersAllocated(f) && forall g :: g in f.live ==> ListLinks(f.lists[g], g)
  }

  // events that user code or the feeder cause
  ghost predicate Calm(e: Event) {
    e.Added? || e.Flagged? || e.Fed?
  }

  /** The log went on, but nothing was polled, finished, unlinked or destroyed. */
  ghost predicate CalmLog(log0: seq<Event>, log: seq<Event>) {
    && |log0| <= |log| && log[..|log0|] == log0
    && (forall i :: |log0| <= i < |log| ==> Calm(log[i]))
  }

  /** What user code may have done to the forest: it got bigger, and nothing finished. */
  ghost predicate Grown(f0: Forest, f: Forest) {
    && f0.ever <= f.ever && f0.live <= f.live && f.delayed == f0.delayed
    && ListsGrown(f0, f)
    && CalmLog(f0.log, f.log)
  }

  ghost predicate ListsGrown(f0: Forest, f: Forest) {
    forall g :: g in f0.live && g in f0.lists ==> g in f.lists && EndsWith(f.lists[g], f0.lists[g])
  }

  /** New members are put in front of the old ones. */
  ghost predicate EndsWith(list: seq<Request>, end: seq<Request>) {
    |end| <= |list| && list[|list| - |end|..] == end
  }

  lemma EndsWithTrans(a: seq<Request>, b: seq<Request>, c: seq<Request>)
    requires EndsWith(b, a) && EndsWith(c, b)
    ensures EndsWith(c, a)
  {
    assert c[|c| - |a|..] == c[|c| - |b|..][|b| - |a|..];
  }

  /**
   * Between two states nothing was fed and no limit or feeder was changed, and a group has the flag
   * EIO_FLAG_GROUPADD if it had it or something was added to it.
   */
  twostate predicate Untuned(f0: Forest, new f: Forest)
    reads f0.live
  {
    && NoFeeds(f0.log, f.log)
    && forall g :: g in f0.live ==>
        && g.int2 == old(g.int2) && g.hasFeed == old(g.hasFeed)
        && (g.groupAdd <==> old(g.groupAdd) || AddedTo(f0.log, f.log, g))
  }

  /** What grp_try_feed reads of a group besides its size. */
  datatype Feed = Feed(limit: int, on: bool)

  ghost function FeedsOf(live: set<Request>): map<Request, Feed>
    reads live`int2, live`hasFeed
  {
    map g | g in live :: Feed(g.int2, g.hasFeed)
  }

  lemma FeedsWithout(live: set<Request>, r: Request)
    ensures FeedsOf(live - {r}) == FeedsOf(live) - {r}
  {
  }

  /** Requests keep their limits and feeders. */
  ghost predicate SameFeeds(feeds0: map<Request, Feed>, feeds: map<Request, Feed>) {
    forall g :: g in feeds0 ==> g in feeds && feeds[g] == feeds0[g]
  }

  /**
   * A group that is left has the limit it had, and it has the feeder it had unless one of its feedings
   * since made no progress.
   */
  ghost predicate FeedersKept(log0: seq<Event>, feeds0: map<Request, Feed>, log: seq<Event>,
                              feeds: map<Request, Feed>) {
    forall g :: g in feeds0 && g in feeds ==>
      feeds[g] == Feed(feeds0[g].limit, feeds0[g].on && AllProductive(log0, log, g))
  }

  lemma SameFeedsTrans(feeds0: map<Request, Feed>, feeds1: map<Request, Feed>, feeds: map<Request, Feed>)
    requires SameFeeds(feeds0, feeds1) && SameFeeds(feeds1, feeds)
    ensures SameFeeds(feeds0, feeds)
  {
  }

  lemma SameFeedsAt(feeds0: map<Request, Feed>, feeds: map<Request, Feed>, g: Request)
    requires SameFeeds(feeds0, feeds) && g in feeds0
    ensures g in feeds && feeds[g] == feeds0[g]
  {
  }

  lemma SameFeedsRefl(feeds: map<Request, Feed>)
    ensures SameFeeds(feeds, feeds)
  {
  }

  /** Nothing is fed, then groups are, then a request is destroyed. */
  lemma KeptAfter(log0: seq<Event>, feeds0: map<Request, Feed>, log1: seq<Event>, feeds1: map<Request, Feed>,
                  log: seq<Event>, feeds: map<Request, Feed>)
    requires SameFeeds(feeds0, feeds1) && NoFeeds(log0, log1) && FeedersKept(log1, feeds1, log, feeds)
    requires |log0| <= |log1| && Prefix(log1, log)
    ensures FeedersKept(log0, feeds0, log, feeds)
  {
    hide AllProductive;
    ProductiveAfter(log0, log1, log);
  }

  lemma KeptDestroy(log0: seq<Event>, feeds0: map<Request, Feed>, log: seq<Event>, feeds: map<Request, Feed>,
                    req: Request)
    requires FeedersKept(log0, feeds0, log, feeds) && |log0| <= |log|
    ensures FeedersKept(log0, feeds0, log + [Destroyed(req)], feeds - {req})
  {
    hide AllProductive;
    ProductiveThen(log0, log, Destroyed(req));
  }

  /** Nothing was fed at all. */
  lemma KeptSame(log0: seq<Event>, feeds0: map<Request, Feed>, log: seq<Event>, feeds: map<Request, Feed>)
    requires SameFeeds(feeds0, feeds) && NoFeeds(log0, log)
    ensures FeedersKept(log0, feeds0, log, feeds)
  {
    hide AllProductive;
    NoneProductive(log0, log);
  }

  /** The same, but `g` has no feeder any more. */
  ghost predicate FeederGone(feeds0: map<Request, Feed>, feeds: map<Request, Feed>, g: Request) {
    forall x :: x in feeds0 ==> x in feeds && feeds[x] == if x == g then Feed(feeds0[x].limit, false) else feeds0[x]
  }

  lemma FeederDrops(feeds0: map<Request, Feed>, feeds: map<Request, Feed>, g: Request)
    ensures SameFeeds(feeds0, feeds) && g in feeds ==> FeederGone(feeds0, feeds[g := Feed(feeds[g].limit, false)], g)
  {
  }

  /** A turn that follows good feedings. */
  lemma AfterTurn(log0: seq<Event>, feeds0: map<Request, Feed>, feeds1: map<Request, Feed>, log: seq<Event>,
                  feeds: map<Request, Feed>, g: Request, more: bool)
    requires SameFeeds(feeds0, feeds1) && OnlyFeeds(log0, log, g)
    requires if more then SameFeeds(feeds1, feeds) else FeederGone(feeds1, feeds, g)
    requires !more && g in feeds1 && feeds1[g].on ==> !AllProductive(log0, log, g)
    ensures if more then SameFeeds(feeds0, feeds) else FeedersKept(log0, feeds0, log, feeds)
  {
    hide AllProductive, OnlyFeeds;
    OthersProductive(log0, log, g);
  }

  lemma FeedersStay(log0: seq<Event>, feeds0: map<Request, Feed>, log: seq<Event>, feeds: map<Request, Feed>)
    requires SameFeeds(feeds0, feeds) && forall g :: AllProductive(log0, log, g)
    ensures FeedersKept(log0, feeds0, log, feeds)
  {
  }

  /** `g` is fed, then it finishes. */
  lemma KeptFinish(log0: seq<Event>, feeds0: map<Request, Feed>, log1: seq<Event>, feeds1: map<Request, Feed>,
                   log: seq<Event>, feeds: map<Request, Feed>, g: Request)
    requires FeedersKept(log0, feeds0, log1, feeds1) && OnlyFeeds(log0, log1, g) && feeds0.Keys <= feeds1.Keys
    requires FeedersKept(log1, feeds1, log, feeds) && |log0| <= |log1| && Prefix(log1, log) && g !in feeds
    ensures FeedersKept(log0, feeds0, log, feeds)
  {
    hide AllProductive;
    ProductiveLater(log0, log1, log, g);
  }

  lemma FedNow(log0: seq<Event>, log1: seq<Event>, log: seq<Event>, g: Request)
    requires CalmLog(log0, log1) && CalmLog(log1 + [Fed(g)], log)
    ensures FedSince(log0, log, g)
  {
    var i := |log1|;
    assert log[..|log1| + 1][i] == Fed(g);
  }

  lemma FedLater(log0: seq<Event>, log1: seq<Event>, log: seq<Event>, g: Request)
    requires CalmLog(log0, log1) && FedSince(log1, log, g)
    ensures FedSince(log0, log, g)
  {
    var i :| |log1| <= i < |log| && log[i] == Fed(g);
    assert |log0| <= i;
  }

  /** The member list of `g` became longer. */
  ghost predicate Longer(f0: Forest, f: Forest, g: Request) {
    g in f0.lists && g in f.lists && |f0.lists[g]| < |f.lists[g]|
  }

  /** What one more event adds to a history. */
  lemma NextLog(log: seq<Event>, e: Event, r: Request)
    ensures forall x :: x in log + [e] <==> x in log || x == e
    ensures WasAdded(log + [e], r) <==> WasAdded(log, r) || (e.Added? && e.m == r)
  {
    assert forall x :: x in log ==> x in log + [e];
    assert e in log + [e];
  }

  /** What the loop of grp_try_feed needs to know after a turn. */
  lemma AfterFeeding(f0: Forest, f1: Forest, f: Forest, grp: Request)
    requires Inv(f0) && Inv(f1) && Grown(f0, f1) && Grown(f1, f)
    requires grp in f1.live && Finishing(grp) !in f1.log
    ensures Grown(f0, f) && f0.live <= f.live && f1.live <= f.live && |f0.log| <= |f1.log| <= |f.log|
    ensures FedSince(f1.log, f.log, grp) ==> FedSince(f0.log, f.log, grp)
    ensures grp in f1.lists && grp in f.lists && Finishing(grp) !in f.log && |f1.lists[grp]| <= |f.lists[grp]|
    ensures forall g :: g in f0.live && (Longer(f0, f1, g) || Longer(f1, f, g)) ==> Longer(f0, f, g)
    ensures Longer(f1, f, grp) ==> |f1.lists[grp]| < |f.lists[grp]|
  {
    hide Inv, CalmLog, FedSince;
    GrownFacts(f0, f1);
    GrownFacts(f1, f);
    if FedSince(f1.log, f.log, grp) {
      FedLater(f0.log, f1.log, f.log, grp);
    }
    GrownTrans(f0, f1, f);
    CalmSame(f1.log, f.log);
    LiveEver(f0);
    LiveEver(f1);
  }

  lemma CalmTrans(log0: seq<Event>, log1: seq<Event>, log2: seq<Event>)
    requires CalmLog(log0, log1) && CalmLog(log1, log2)
    ensures CalmLog(log0, log2)
  {
    assert log2[..|log0|] == log2[..|log1|][..|log0|];
    forall i | |log0| <= i < |log2|
      ensures Calm(log2[i])
    {
      if i < |log1| {
        assert log2[i] == log2[..|log1|][i];
      }
    }
  }

  lemma CalmSame(log0: seq<Event>, log: seq<Event>)
    requires CalmLog(log0, log)
    ensures |log0| <= |log| && log[..|log0|] == log0
    ensures forall r :: Finishing(r) in log <==> Finishing(r) in log0
    ensures forall r :: Polled(r) in log <==> Polled(r) in log0
    ensures forall r :: Unlinked(r) in log <==> Unlinked(r) in log0
    ensures forall r :: Destroyed(r) in log <==> Destroyed(r) in log0
    ensures forall r :: WasCalled(log, r) <==> WasCalled(log0, r)
    ensures FirstNonzero(log[|log0|..]) == 0
  {
    assert log == log[..|log0|] + log[|log0|..];
    assert forall e :: e in log <==> e in log0 || e in log[|log0|..];
    assert forall e :: e in log[|log0|..] ==> Calm(e);
    CalmNoResult(log[|log0|..]);
  }

  lemma {:induction false} CalmNoResult(events: seq<Event>)
    requires forall e :: e in events ==> Calm(e)
    ensures FirstNonzero(events) == 0
  {
    if events != [] {
      assert events[0] in events;
      CalmNoResult(events[1..]);
    }
  }

  lemma GrownTrans(f0: Forest, f1: Forest, f2: Forest)
    requires Inv(f0) && Grown(f0, f1) && Grown(f1, f2)
    ensures Grown(f0, f2)
  {
    CalmTrans(f0.log, f1.log, f2.log);
    forall g | g in f0.live && g in f0.lists
      ensures g in f2.lists && EndsWith(f2.lists[g], f0.lists[g])
    {
      EndsWithTrans(f0.lists[g], f1.lists[g], f2.lists[g]);
    }
  }

  /** Members stay members. */
  lemma GrownMembers(f0: Forest, f: Forest, m: Request)
    requires Grown(f0, f)
    ensures forall g :: g in f0.live && g in f0.lists && m in f0.lists[g] ==> g in f.lists && m in f.lists[g]
  {
    forall g | g in f0.live && g in f0.lists && m in f0.lists[g]
      ensures g in f.lists && m in f.lists[g]
    {
      assert m in f.lists[g][|f.lists[g]| - |f0.lists[g]|..];
    }
  }

  lemma GrownRefl(f: Forest)
    ensures Grown(f, f)
  {
  }

  lemma GrownByNew(f: Forest, r: Request)
    requires Inv(f) && r !in f.ever
    ensures Grown(f, WithNew(f, r))
  {
  }

  lemma GrownByMember(f: Forest, g: Request, m: Request)
    requires g in f.lists
    ensures Grown(f, WithMember(f, g, m)) && |WithMember(f, g, m).lists[g]| == 1 + |f.lists[g]|
  {
  }

  lemma GrownByRank(f: Forest, rank: map<Request, nat>)
    ensures Grown(f, f.(rank := rank))
  {
  }

  lemma GrownByFlags(f: Forest, f': Forest)
    requires OnlyFlags(f, f')
    ensures Grown(f, f')
  {
  }

  lemma GrownFacts(f0: Forest, f: Forest)
    requires Inv(f0) && Grown(f0, f)
    ensures f0.ever <= f.ever && f0.live <= f.live && f.delayed == f0.delayed
    ensures forall g :: g in f0.live ==> g in f.lists && |f0.lists[g]| <= |f.lists[g]|
    ensures CalmLog(f0.log, f.log) && Prefix(f0.log, f.log)
  {
  }

  /** A request does not finish before it is polled. */
  lemma BeforePolled(f: Forest, req: Request)
    requires Inv(f) && req in f.live && Polled(req) !in f.log
    ensures Finishing(req) !in f.log && OkNext(f.log, Polled(req)) && req in f.lists && req in f.ever
  {
    AfterPolled(f.log, req);
  }

  lemma AfterPolled(log: seq<Event>, r: Request)
    requires GoodHistory(log)
    ensures Finishing(r) in log ==> Polled(r) in log
  {
    if Finishing(r) in log {
      var i :| 0 <= i < |log| && log[i] == Finishing(r);
      assert OkNext(log[..i], log[i]);
    }
  }

  lemma MemberCount(f: Forest, req: Request)
    requires Inv(f) && AllFields(f) && req in f.live
    ensures req in f.lists && (req.isGroup && req.size != 0 <==> f.lists[req] != [])
  {
    assert FieldsOk(f, req);
  }

  lemma DelayedFields(f: Forest, q: Request, r: Request, size: int, int1: int, cancelled: bool, grp: Request?)
    requires r in f.lists && FieldsMatch(f, r, size, int1, cancelled, grp) && q.isGroup && Finishing(q) !in f.log
    ensures FieldsMatch(WithDelayed(f, q), r, size, if r == q then 1 else int1, cancelled, grp)
  {
    hide WasAdded;
    NextLog(f.log, Polled(q), r);
  }

  lemma SmallerSet(a: set<Request>, b: set<Request>)
    requires a < b
    ensures |a| < |b|
  {
    var x :| x in b && x !in a;
    assert a <= b - {x};
    SubsetSize(a, b - {x});
  }

  lemma {:induction false} SubsetSize(a: set<Request>, b: set<Request>)
    requires a <= b
    ensures |a| <= |b|
    decreases |a|
  {
    if a != {} {
      var x :| x in a;
      SubsetSize(a - {x}, b - {x});
    }
  }

  /**
   * What finishing keeps: the log only grows, no group gets delayed, and requests that are already
   * finishing, except those in `but`, stay. `res` is the first callback result that is not zero.
   */
  ghost predicate Keeps(f0: Forest, f: Forest, but: set<Request>, res: int) {
    && f0.ever <= f.ever && f.delayed <= f0.delayed
    && |f0.log| <= |f.log| && f.log[..|f0.log|] == f0.log
    && (forall r :: r in f0.live && Finishing(r) in f0.log && r !in but ==> r in f.live)
    && res == FirstNonzero(f.log[|f0.log|..])
  }

  lemma KeepsRefl(f: Forest)
    ensures Keeps(f, f, {}, 0)
  {
  }

  lemma KeepsExtends(f0: Forest, f: Forest, but: set<Request>, res: int)
    requires Keeps(f0, f, but, res)
    ensures f0.log <= f.log
  {
  }

  lemma KeepsFacts(f0: Forest, f: Forest, res: int)
    requires Keeps(f0, f, {}, res)
    ensures f.delayed <= f0.delayed && Prefix(f0.log, f.log)
    ensures forall e :: e in f0.log ==> e in f.log
    ensures forall r :: r in f0.live && Finishing(r) in f0.log ==> r in f.live
  {
    assert forall e :: e in f0.log ==> e in f.log[..|f0.log|];
  }

  lemma NewEvents(log0: seq<Event>, log1: seq<Event>, log2: seq<Event>)
    requires |log0| <= |log1| <= |log2| && log1[..|log0|] == log0 && log2[..|log1|] == log1
    ensures log2[..|log0|] == log0
    ensures FirstNonzero(log2[|log0|..]) ==
      if FirstNonzero(log1[|log0|..]) != 0 then FirstNonzero(log1[|log0|..]) else FirstNonzero(log2[|log1|..])
  {
    assert log2[..|log0|] == log2[..|log1|][..|log0|];
    assert log2[|log0|..] == log2[..|log1|][|log0|..] + log2[|log1|..];
    FirstNonzeroConcat(log1[|log0|..], log2[|log1|..]);
  }

  lemma KeepsTrans(f0: Forest, f1: Forest, f2: Forest, v1: int, v2: int)
    requires Keeps(f0, f1, {}, v1) && Keeps(f1, f2, {}, v2)
    ensures Keeps(f0, f2, {}, if v1 != 0 then v1 else v2)
  {
    NewEvents(f0.log, f1.log, f2.log);
    KeepsFacts(f0, f1, v1);
  }

  lemma OneEvent(e: Event)
    ensures FirstNonzero([e]) == if e.Called? then e.res else 0
  {
    assert [e][1..] == [];
  }

  lemma KeepsBegin(f: Forest, req: Request)
    requires Inv(f)
    ensures Keeps(f, WithFinishing(f, req), {}, 0)
    ensures Finishing(req) in WithFinishing(f, req).log
    ensures SettledBut(f, {req}) ==> SettledBut(WithFinishing(f, req), {})
  {
    var f' := WithFinishing(f, req);
    assert f'.log[|f.log|..] == [Finishing(req)];
    OneEvent(Finishing(req));
  }

  lemma KeepsCalled(f: Forest, req: Request, res: int)
    requires Inv(f)
    ensures Keeps(f, WithEvent(f, Called(req, res)), {}, res)
    ensures SettledBut(f, {}) ==> SettledBut(WithEvent(f, Called(req, res)), {})
    ensures Unlinked(req) in WithEvent(f, Called(req, res)).log ==> Unlinked(req) in f.log
    ensures Answered(WithEvent(f, Called(req, res)).log, req)
  {
    var f' := WithEvent(f, Called(req, res));
    assert f'.log[|f.log|..] == [Called(req, res)];
    OneEvent(Called(req, res));
  }

  // without a callback to run, or cancelled, a request is answered as it is
  lemma NotAnswered(f: Forest, req: Request)
    requires AllFields(f) && req in f.live
    ensures !req.hasFinish || req.cancelled ==> Answered(f.log, req)
  {
    assert FieldsOk(f, req);
  }

  lemma KeepsAnswered(f0: Forest, f: Forest, req: Request, res: int)
    requires Keeps(f0, f, {}, res) && Answered(f0.log, req)
    ensures Answered(f.log, req)
  {
    KeepsFacts(f0, f, res);
  }

  lemma KeepsGrown(f: Forest, f': Forest)
    requires Inv(f) && Grown(f, f')
    ensures Keeps(f, f', {}, 0)
    ensures forall but :: SettledBut(f, but) ==> SettledBut(f', but)
    ensures forall r :: Unlinked(r) in f'.log ==> Unlinked(r) in f.log
  {
    CalmSame(f.log, f'.log);
    DelayedLive(f);
  }

  lemma KeepsUnlink(f: Forest, g: Request, k: nat)
    requires Inv(f) && g in f.lists && k < |f.lists[g]|
    ensures Keeps(f, WithoutMember(f, g, k), {}, 0)
    ensures SettledBut(f, {}) ==> SettledBut(WithoutMember(f, g, k), {g})
    ensures Unlinked(f.lists[g][k]) in WithoutMember(f, g, k).log
    ensures Finishing(g) !in f.log ==> Finishing(g) !in WithoutMember(f, g, k).log
  {
    var f', e := WithoutMember(f, g, k), Unlinked(f.lists[g][k]);
    assert f'.log[|f.log|..] == [e];
    OneEvent(e);
  }

  lemma KeepsDestroy(f0: Forest, f1: Forest, f2: Forest, req: Request, res: int)
    requires Inv(f2) && Keeps(f0, f1, {}, 0) && Keeps(f1, f2, {}, res) && SettledBut(f2, {})
    requires Finishing(req) in f2.log
    ensures Keeps(f0, WithoutRequest(f2, req), {req}, res)
    ensures SettledBut(WithoutRequest(f2, req), {})
  {
    KeepsTrans(f0, f1, f2, 0, res);
    var f3 := WithoutRequest(f2, req);
    assert f3.log[|f2.log|..] == [Destroyed(req)];
    OneEvent(Destroyed(req));
    NewEvents(f0.log, f2.log, f3.log);
  }

  /** A request not yet finishing when `f` was reached cannot matter to those that were. */
  lemma KeepsOthers(f: Forest, f': Forest, g: Request, res: int)
    requires Keeps(f, f', {g}, res) && Finishing(g) !in f.log
    ensures Keeps(f, f', {}, res)
  {
  }

  lemma FinishAllowed(f: Forest, req: Request)
    requires Inv(f) && req in f.live && req in f.lists && f.lists[req] == []
    requires Polled(req) in f.log && Finishing(req) !in f.log
    ensures OkNext(f.log, Finishing(req))
  {
    assert ListOk(f, req);
  }

  /** Callbacks and unlinking only come after the request began to finish. */
  lemma AfterFinishing(log: seq<Event>, r: Request)
    requires GoodHistory(log)
    ensures WasCalled(log, r) || Unlinked(r) in log ==> Finishing(r) in log
  {
    if WasCalled(log, r) {
      var e :| e in log && e.Called? && e.r == r;
      var i :| 0 <= i < |log| && log[i] == e;
      assert OkNext(log[..i], log[i]);
    } else if Unlinked(r) in log {
      var i :| 0 <= i < |log| && log[i] == Unlinked(r);
      assert OkNext(log[..i], log[i]);
    }
  }

  lemma CalledAllowed(f0: Forest, f: Forest, req: Request)
    requires Inv(f0) && Finishing(req) !in f0.log && f == WithFinishing(f0, req)
    requires Inv(f) && AllFields(f) && req in f.live && !req.cancelled && req.hasFinish
    ensures forall res :: OkNext(f.log, Called(req, res))
  {
    hide Inv, AllFields, OkNext;
    NotCalledYet(f0, req);
    NotFlagged(f, req);
    LiveEver(f);
    MayBeCalled(f.log, req);
  }

  lemma NotCalledYet(f: Forest, req: Request)
    requires Inv(f) && Finishing(req) !in f.log
    ensures var log := f.log + [Finishing(req)];
            Finishing(req) in log && Unlinked(req) !in log && !WasCalled(log, req)
  {
    AfterFinishing(f.log, req);
    hide Inv;
    assert forall e :: e in f.log + [Finishing(req)] ==> e in f.log || e == Finishing(req);
  }

  lemma NotFlagged(f: Forest, req: Request)
    requires AllFields(f) && req in f.live && !req.cancelled
    ensures Flagged(req) !in f.log
  {
    assert FieldsOk(f, req);
  }

  lemma MayBeCalled(log: seq<Event>, r: Request)
    requires r.hasFinish && Finishing(r) in log && !WasCalled(log, r) && Unlinked(r) !in log
    requires Flagged(r) !in log && Destroyed(r) !in log
    ensures forall res :: OkNext(log, Called(r, res))
  {
  }

  /** Right after it began to finish a request is not unlinked yet. */
  lemma NotUnlinked(f0: Forest, req: Request)
    requires Inv(f0) && Finishing(req) !in f0.log
    ensures Unlinked(req) !in WithFinishing(f0, req).log
  {
    AfterFinishing(f0.log, req);
  }

  lemma NeverLinked(f: Forest, req: Request)
    requires AllFields(f) && req in f.live && req.grp == null
    ensures !WasAdded(f.log, req)
  {
    assert FieldsOk(f, req);
  }

  lemma NoGroup(f: Forest, req: Request)
    requires Inv(f) && !WasAdded(f.log, req)
    ensures forall g :: g in f.live && g in f.lists ==> req !in f.lists[g]
  {
    forall g | g in f.live
      ensures req !in f.lists[g]
    {
      NotListed(f, g, req, g);
    }
  }

  lemma OnlyGroup(f: Forest, grp: Request, req: Request)
    requires Inv(f) && grp in f.live && req in f.lists[grp]
    ensures forall g :: g in f.live && g in f.lists && req in f.lists[g] ==> g == grp
  {
    forall g | g in f.live && req in f.lists[g]
      ensures g == grp
    {
      if g != grp {
        OneList(f, g, grp, req);
      }
    }
  }

  lemma DestroyAllowed(f: Forest, req: Request)
    requires Inv(f) && req in f.live && Finishing(req) in f.log && (WasAdded(f.log, req) ==> Unlinked(req) in f.log)
    requires Answered(f.log, req)
    ensures OkNext(f.log, Destroyed(req))
  {
    LiveEver(f);
  }

  /** Whether a group waits for its members is written in its fields. */
  lemma GroupState(f: Forest, g: Request)
    requires Inv(f) && AllFields(f) && g in f.live && g.isGroup && Finishing(g) !in f.log
    ensures g in f.lists && g.size == |f.lists[g]|
    ensures g.int1 != 0 <==> g in f.delayed
    ensures g in f.delayed ==> Polled(g) in f.log
  {
    assert FieldsOk(f, g);
    DelayedLive(f);
  }

  lemma NowSettled(f: Forest, g: Request)
    requires SettledBut(f, {g}) && g in f.lists && (f.lists[g] != [] || g !in f.delayed)
    ensures SettledBut(f, {})
  {
  }

  lemma FinishingFields(f: Forest, q: Request, r: Request, size: int, int1: int, cancelled: bool, grp: Request?)
    requires r in f.lists && FieldsMatch(f, r, size, int1, cancelled, grp)
    ensures FieldsMatch(WithFinishing(f, q), r, size, int1, cancelled, grp)
  {
    hide WasAdded;
    NextLog(f.log, Finishing(q), r);
  }

  /** A linked request is in its group's list, so the group cannot be finishing. */
  lemma MemberIndex(f: Forest, req: Request)
    requires Inv(f) && req in f.live && FieldsOk(f, req) && AllFields(f)
    requires req.grp != null && Unlinked(req) !in f.log && Finishing(req) in f.log && Answered(f.log, req)
    ensures req.grp in f.live && req.grp in f.lists && req.grp.isGroup && Finishing(req.grp) !in f.log
    ensures req in f.lists[req.grp] && OkNext(f.log, Unlinked(req))
  {
    var g := req.grp;
    MembersLive(f, g);
    assert FieldsOk(f, g);
  }

  lemma UnlinkedFields(f: Forest, g: Request, k: nat, r: Request, size: int, int1: int, cancelled: bool, grp: Request?)
    requires g in f.lists && g.isGroup && k < |f.lists[g]| && r in f.lists &&
      FieldsMatch(f, r, size, int1, cancelled, grp)
    ensures FieldsMatch(WithoutMember(f, g, k), r, if r == g then size - 1 else size, int1, cancelled, grp)
  {
    var m, s, log := f.lists[g][k], f.lists[g], f.log + [Unlinked(f.lists[g][k])];
    UnlinkedLog(f.log, m, r);
    StillListed(s, k, r);
    assert WithoutMember(f, g, k).log == log;
    hide WasAdded;
  }

  lemma UnlinkedLog(log: seq<Event>, m: Request, r: Request)
    ensures WasAdded(log + [Unlinked(m)], r) <==> WasAdded(log, r)
    ensures forall e :: e in log + [Unlinked(m)] <==> e in log || e == Unlinked(m)
  {
  }

  lemma StillListed(s: seq<Request>, k: nat, r: Request)
    requires k < |s|
    ensures r in s && r != s[k] ==> r in s[..k] + s[k + 1..]
  {
    assert s == s[..k] + [s[k]] + s[k + 1..];
  }

  lemma UnlinkedMembers(f: Forest, g: Request, k: nat)
    requires MembersAllocated(f) && g in f.live && g in f.lists && k < |f.lists[g]|
    ensures MembersAllocated(WithoutMember(f, g, k))
  {
  }

  lemma DestroyedFields(f: Forest, q: Request, r: Request, size: int, int1: int, cancelled: bool, grp: Request?)
    requires q in f.lists ==> f.lists[q] == []
    requires r in f.lists && r != q && FieldsMatch(f, r, size, int1, cancelled, grp)
    ensures FieldsMatch(WithoutRequest(f, q), r, size, int1, cancelled, grp)
  {
    hide WasAdded;
    NextLog(f.log, Destroyed(q), r);
  }

  lemma NoMembersLeft(f: Forest, q: Request)
    requires Inv(f) && q in f.live && OkNext(f.log, Destroyed(q))
    ensures q in f.lists ==> f.lists[q] == []
  {
    hide History, Delays, WasAdded;
    MembersLive(f, q);
  }

  lemma DestroyedMembers(f: Forest, q: Request)
    requires Inv(f) && MembersAllocated(f) && OkNext(f.log, Destroyed(q))
    ensures MembersAllocated(WithoutRequest(f, q))
  {
    forall g, m | g in f.live && g != q && m in f.lists[g]
      ensures m != q
    {
      MembersLive(f, g);
    }
  }

  /** The pointer updates of the unlinking. */
  method UnlinkNode(grp: Request, req: Request, ghost list: seq<Request>, ghost k: nat)
    requires ListLinks(list, grp) && NoDup(list) && k < |list| && list[k] == req
    modifies grp`size, grp`grpFirst, list`grpPrev, list`grpNext
    ensures grp.size == old(grp.size) - 1
    ensures ListLinks(list[..k] + list[k + 1..], grp)
  {
    ghost var nodes := NodesOf(list);
    assert nodes[k] == Node(req.grp, req.grpPrev, req.grpNext);
    if req.grpNext != null {
      req.grpNext.grpPrev := req.grpPrev;
    }
    if req.grpPrev != null {
      req.grpPrev.grpNext := req.grpNext;
    }
    if grp.grpFirst == req {
      grp.grpFirst := req.grpNext;
    }
    grp.size := grp.size - 1;
    ghost var rest := list[..k] + list[k + 1..];
    assert forall i :: 0 <= i < |rest| ==> rest[i] == list[if i < k then i else i + 1];
    LinkedWithout(list, grp, k, nodes, NodesOf(rest));
  }

  lemma LinkedWithout(list: seq<Request>, g: Request, k: nat, nodes: seq<Node>, nodes': seq<Node>)
    requires k < |list| && Linked(list, g, if list == [] then null else list[0], nodes) && |nodes'| == |list| - 1
    requires forall i :: 0 <= i < |nodes'| ==> nodes'[i] == NodeWithout(nodes, k, i)
    ensures Linked(list[..k] + list[k + 1..], g,
      if k > 0 then list[0] else if |list| == 1 then null else list[1], nodes')
  {
    var rest := list[..k] + list[k + 1..];
    forall i | 0 <= i < |rest|
      ensures nodes'[i] == Node(g, if i == 0 then null else rest[i - 1], if i == |rest| - 1 then null else rest[i + 1])
    {
      var j := if i < k then i else i + 1;
      assert nodes[j] == Node(g, if j == 0 then null else list[j - 1], if j == |list| - 1 then null else list[j + 1]);
    }
  }

  /** The links of the remaining nodes: only the neighbours of the removed one changed. */
  ghost function NodeWithout(nodes: seq<Node>, k: nat, i: nat): Node
    requires k < |nodes| && i < |nodes| - 1
  {
    var node := nodes[if i < k then i else i + 1];
    if i == k - 1 then node.(next := nodes[k].next)
    else if i == k then node.(prev := nodes[k].prev)
    else node
  }

  lemma GroupFacts(f: Forest, g: Request)
    requires Inv(f) && AllFields(f) && g in f.live && g.isGroup
    ensures g in f.lists && g.size == |f.lists[g]|
  {
    assert FieldsOk(f, g);
  }

  lemma FeedAllowed(f: Forest, g: Request)
    requires Inv(f) && AllFields(f) && g in f.live && !g.cancelled && Finishing(g) !in f.log
    ensures OkNext(f.log, Fed(g))
  {
    assert FieldsOk(f, g);
  }

  lemma GrownByFeed(f: Forest, g: Request)
    ensures Grown(f, WithEvent(f, Fed(g)))
  {
  }

  ghost predicate UnderSome(lists: map<Request, seq<Request>>, rank: map<Request, nat>, s: seq<Request>, x: Request)
    requires WellRanked(lists, rank) && forall m :: m in s ==> m in lists
  {
    exists m :: m in s && Under(lists, rank, m, x)
  }

  lemma UnderNext(lists: map<Request, seq<Request>>, rank: map<Request, nat>, s: seq<Request>, m: Request)
    requires WellRanked(lists, rank) && m in lists && forall y :: y in s ==> y in lists
    ensures forall x :: UnderSome(lists, rank, s + [m], x) <==> UnderSome(lists, rank, s, x) || Under(lists, rank, m, x)
  {
    forall x
      ensures UnderSome(lists, rank, s + [m], x) <==> UnderSome(lists, rank, s, x) || Under(lists, rank, m, x)
    {
      assert m in s + [m];
      if UnderSome(lists, rank, s, x) {
        var y :| y in s && Under(lists, rank, y, x);
        assert y in s + [m];
      }
    }
  }

  lemma NoneUnder(lists: map<Request, seq<Request>>, rank: map<Request, nat>)
    requires WellRanked(lists, rank)
    ensures forall x :: !UnderSome(lists, rank, [], x)
  {
  }

  lemma LiveEver(f: Forest)
    requires Inv(f)
    ensures f.live <= f.ever && f.live == f.lists.Keys == f.rank.Keys
    ensures forall r :: r in f.live ==> Destroyed(r) !in f.log
    ensures WellRanked(f.lists, f.rank)
  {
    forall g, m | g in f.lists && m in f.lists[g]
      ensures m in f.lists && g in f.rank && m in f.rank && f.rank[m] < f.rank[g]
    {
      MembersLive(f, g);
    }
  }

  ghost predicate WellRanked(lists: map<Request, seq<Request>>, rank: map<Request, nat>) {
    && lists.Keys == rank.Keys
    && forall g, m :: g in lists && m in lists[g] ==> m in lists && g in rank && m in rank && rank[m] < rank[g]
  }

  /** `x` is `a` or a transitive member of `a`. */
  ghost predicate Under(lists: map<Request, seq<Request>>, rank: map<Request, nat>, a: Request, x: Request)
    requires WellRanked(lists, rank) && a in lists
    decreases rank[a]
  {
    x == a || exists m :: m in lists[a] && Under(lists, rank, m, x)
  }

  /** Nothing but cancelled flags changed. */
  ghost predicate OnlyFlags(f0: Forest, f: Forest) {
    f == f0.(log := f.log) && FlagsAppended(f0.log, f.log)
  }

  ghost predicate FlagsAppended(log0: seq<Event>, log: seq<Event>) {
    && |log0| <= |log| && log[..|log0|] == log0
    && (forall i :: |log0| <= i < |log| ==> log[i].Flagged?)
  }

  lemma FlagsAppendedTrans(log0: seq<Event>, log1: seq<Event>, log2: seq<Event>)
    requires FlagsAppended(log0, log1) && FlagsAppended(log1, log2)
    ensures FlagsAppended(log0, log2)
  {
    assert log2[..|log0|] == log2[..|log1|][..|log0|];
    forall i | |log0| <= i < |log2|
      ensures log2[i].Flagged?
    {
      if i < |log1| {
        assert log2[i] == log2[..|log1|][i];
      }
    }
  }

  lemma FlagsAddNothing(log0: seq<Event>, log: seq<Event>)
    requires FlagsAppended(log0, log)
    ensures NoFeeds(log0, log) && forall g :: !AddedTo(log0, log, g)
  {
  }

  lemma FlagsAppendedOne(log: seq<Event>, r: Request)
    ensures FlagsAppended(log, log) && FlagsAppended(log, log + [Flagged(r)])
  {
  }

  /** Walking a member list. */
  lemma ListStart(f: Forest, g: Request)
    requires Inv(f) && g in f.live && ListLinks(f.lists[g], g)
    ensures g.grpFirst == if f.lists[g] == [] then null else f.lists[g][0]
    ensures forall m :: m in f.lists[g] ==> m in f.live
  {
    MembersLive(f, g);
  }

  lemma ListNext(f: Forest, g: Request, list: seq<Request>, i: nat)
    requires Inv(f) && g in f.live && ListLinks(f.lists[g], g) && list == f.lists[g] && i < |list|
    ensures list[i].grpNext == if i == |list| - 1 then null else list[i + 1]
  {
    assert NodesOf(list)[i].next == list[i].grpNext;
  }

  lemma TakeNext(s: seq<Request>, i: nat)
    requires i < |s|
    ensures s[..i + 1] == s[..i] + [s[i]] && s[i] in s
  {
  }

  lemma EventFields(f: Forest, e: Event, r: Request, size: int, int1: int, cancelled: bool, grp: Request?)
    requires r in f.lists && FieldsMatch(f, r, size, int1, cancelled, grp) && Neutral(e)
    ensures FieldsMatch(WithEvent(f, e), r, size, int1, cancelled || e == Flagged(r), grp)
  {
    hide WasAdded;
    NextLog(f.log, e, r);
  }

  lemma NewFields(f: Forest, r: Request)
    requires Inv(f) && r !in f.ever
    ensures FieldsMatch(WithNew(f, r), r, 0, 0, false, null)
    ensures Linked([], r, null, [])
  {
    assert forall e :: e in f.log && e.Added? ==> e.m in Mentioned(e);
    assert r in Mentioned(Flagged(r));
    assert r !in f.delayed by {
      DelayedLive(f);
    }
  }

  /** The fields of a request match as long as nothing about that request changes. */
  lemma SameFields(f: Forest, f': Forest, r: Request, size: int, int1: int, cancelled: bool, grp: Request?)
    requires r in f.lists && r in f'.lists && f.lists[r] == f'.lists[r] && FieldsMatch(f, r, size, int1, cancelled, grp)
    requires f.log == f'.log && (r in f.delayed <==> r in f'.delayed) && f.live <= f'.live
    requires forall g :: g in f.lists && g in f.live ==> g in f'.lists && f'.lists[g] == f.lists[g]
    ensures FieldsMatch(f', r, size, int1, cancelled, grp)
  {
  }

  /** The pointer updates of eio_grp_add. */
  method LinkFront(g: Request, r: Request, ghost list: seq<Request>)
    requires ListLinks(list, g) && NoDup(list) && r !in list
    requires g.grpFirst == if list == [] then null else list[0]
    modifies g`groupAdd, g`size, g`grpFirst, r`grp, r`grpPrev, r`grpNext, list`grpPrev
    ensures g.groupAdd && g.size == old(g.size) + 1 && r.grp == g
    ensures ListLinks([r] + list, g)
  {
    hide Linked;
    g.groupAdd := true;
    g.size := g.size + 1;
    r.grp := g;
    r.grpPrev := null;
    r.grpNext := g.grpFirst;
    if g.grpFirst != null {
      g.grpFirst.grpPrev := r;
    }
    g.grpFirst := r;
    ghost var all, nodes := [r] + list, NodesOf([r] + list);
    assert forall i :: 0 <= i < |list| ==> all[i + 1] == list[i];
    LinkedFirst(list, g, r, old(NodesOf(list)), nodes);
  }

  /** A request that was never added is in no list, and the lists of different groups are disjoint. */
  lemma NotListed(f: Forest, g: Request, r: Request, h: Request)
    requires Inv(f) && g in f.live && h in f.live
    ensures NoDup(f.lists[h])
    ensures !WasAdded(f.log, r) ==> r !in f.lists[h]
    ensures g != h ==> forall i :: 0 <= i < |f.lists[h]| ==> f.lists[h][i] !in f.lists[g]
  {
    MembersLive(f, h);
    if g != h {
      forall i | 0 <= i < |f.lists[h]|
        ensures f.lists[h][i] !in f.lists[g]
      {
        if f.lists[h][i] in f.lists[g] {
          OneList(f, g, h, f.lists[h][i]);
        }
      }
    }
  }

  lemma AddAllowed(f: Forest, g: Request, r: Request)
    requires Inv(f) && r in f.live && FieldsOk(f, r)
    requires r.grp == null && Unlinked(r) !in f.log && Finishing(g) !in f.log
    ensures OkNext(f.log, Added(g, r)) && !WasAdded(f.log, r)
  {
  }

  lemma FirstOfList(f: Forest, g: Request)
    requires Inv(f) && g in f.live && ListLinks(f.lists[g], g)
    ensures g.grpFirst != null ==>
      f.lists[g] != [] && g.grpFirst == f.lists[g][0] && g.grpFirst in f.lists[g] && g.grpFirst in f.live
    ensures g.grpFirst == null ==> f.lists[g] == []
  {
    MembersLive(f, g);
  }

  lemma AddedFields(f: Forest, g: Request, r: Request, h: Request, size: int, int1: int, cancelled: bool, grp: Request?)
    requires Inv(f) && g in f.live && g.isGroup && h in f.lists && FieldsMatch(f, h, size, int1, cancelled, grp)
    ensures FieldsMatch(WithMember(f, g, r), h, if h == g then size + 1 else size, int1, cancelled,
      if h == r then g else grp)
  {
    hide Inv;
    var log := f.log + [Added(g, r)];
    assert Added(g, r) in log;
    assert forall e :: e in f.log ==> e in log;
    assert WasAdded(log, h) <==> WasAdded(f.log, h) || h == r;
  }

  lemma AddedMembers(f: Forest, g: Request, r: Request)
    requires MembersAllocated(f) && g in f.live && r in f.live
    ensures MembersAllocated(WithMember(f, g, r))
  {
  }

  lemma LinkedFirst(list: seq<Request>, g: Request, r: Request, nodes: seq<Node>, nodes': seq<Node>)
    requires Linked(list, g, if list == [] then null else list[0], nodes)
    requires |nodes'| == |list| + 1 && nodes'[0] == Node(g, null, if list == [] then null else list[0])
    requires forall i :: 0 <= i < |list| ==> nodes'[i + 1] == if i == 0 then nodes[i].(prev := r) else nodes[i]
    ensures Linked([r] + list, g, r, nodes')
  {
    var all := [r] + list;
    forall i | 0 < i < |all|
      ensures nodes'[i] == Node(g, all[i - 1], if i == |all| - 1 then null else all[i + 1])
    {
      assert nodes'[(i - 1) + 1] == if i - 1 == 0 then nodes[i - 1].(prev := r) else nodes[i - 1];
    }
  }

  // ---------------------------------------------------------------- the heap

  class World {
    var f: Forest

    ghost predicate Valid()
      reads this, f.live
    {
      Inv(f) && AllFields(f) && AllLinks(f)
    }

    /** The limits and feeders. */
    ghost function Feeds(): map<Request, Feed>
      reads this`f, f.live`int2, f.live`hasFeed
    {
      FeedsOf(f.live)
    }

    constructor ()
      ensures Valid() && f == Forest({}, {}, map[], map[], {}, [])
    {
      f := Forest({}, {}, map[], map[], {}, []);
    }

    /** A request made by calloc. */
    method Create(isGroup: bool, hasFinish: bool) returns (r: Request)
      requires Valid()
      modifies this`f
      ensures Valid() && fresh(r) && r !in old(f.ever) && f == WithNew(old(f), r)
      ensures r.isGroup == isGroup && r.hasFinish == hasFinish
      ensures r.int2 == 0 && !r.groupAdd && !r.hasFeed && !r.cancelled && r.grp == null && r.size == r.int1 == 0
    {
      hide Inv, FieldsMatch, Linked;
      r := new Request(isGroup, hasFinish);
      NewKeeps(f, r);
      ghost var was := f;
      f := WithNew(f, r);
      NewFields(was, r);
      assert NodesOf([]) == [];
      forall x | x in f.live
        ensures FieldsOk(f, x) && ListLinks(f.lists[x], x)
      {
        if x != r {
          assert old(FieldsOk(f, x));
          SameFields(was, f, x, x.size, x.int1, x.cancelled, x.grp);
          assert old(ListLinks(f.lists[x], x)) && NodesOf(f.lists[x]) == old(NodesOf(f.lists[x]));
        }
      }
      assert MembersAllocated(f);
    }

    /** eio_grp_add: put the request at the front of the group's list. */
    method GrpAdd(g: Request, r: Request)
      requires Valid() && g in f.live && r in f.live && g.isGroup && f.rank[r] < f.rank[g]
      requires r.grp == null && Unlinked(r) !in f.log && Finishing(g) !in f.log
      modifies this`f, g`groupAdd, g`size, g`grpFirst, r`grp, r`grpPrev, r`grpNext, f.live`grpPrev
      ensures Valid() && f == WithMember(old(f), g, r) && g.groupAdd
    {
      hide Inv, FieldsMatch, Linked;
      ghost var was := f;
      AddAllowed(f, g, r);
      MemberKeeps(f, g, r);
      FirstOfList(f, g);
      NotListed(f, g, r, g);
      LinkFront(g, r, f.lists[g]);
      f := WithMember(f, g, r);
      forall h | h in f.live
        ensures FieldsOk(f, h)
      {
        assert old(FieldsOk(f, h));
        AddedFields(was, g, r, h, old(h.size), h.int1, h.cancelled, old(h.grp));
      }
      forall h | h in f.live
        ensures ListLinks(f.lists[h], h)
      {
        NotListed(was, g, r, h);
        if h != g {
          assert NodesOf(f.lists[h]) == old(NodesOf(f.lists[h]));
        }
      }
      AddedMembers(was, g, r);
    }

    /** Another height for the same forest. */
    method Rerank(rank: map<Request, nat>)
      requires Valid() && Ranks(f, rank)
      modifies this`f
      ensures Valid() && f == old(f).(rank := rank)
    {
      hide Inv, FieldsMatch, Linked;
      ghost var was := f;
      RankKeeps(f, rank);
      f := f.(rank := rank);
      forall x | x in f.live
        ensures FieldsOk(f, x) && ListLinks(f.lists[x], x)
      {
        assert old(FieldsOk(f, x));
        SameFields(was, f, x, x.size, x.int1, x.cancelled, x.grp);
        assert old(ListLinks(f.lists[x], x));
      }
    }

    /** User code adds a request to a group, if that is allowed and makes no cycle. */
    method TryAdd(g: Request, r: Request)
      requires Valid() && g in f.live && r in f.live
      modifies this`f, g`groupAdd, g`size, g`grpFirst, r`grp, r`grpPrev, r`grpNext, f.live`grpPrev
      ensures Valid() && Grown(old(f), f) && f.live == old(f.live)
      ensures g.groupAdd ==> old(g.groupAdd) || Longer(old(f), f, g)
      ensures Untuned(old(f), f)
    {
      hide Inv, AllFields, AllLinks, CalmLog, Grown;
      ghost var f0 := f;
      GrownRefl(f);
      NothingAdded(f.log);
      LiveEver(f);
      if g.isGroup && f.rank[r] < f.rank[g] && r.grp == null && Unlinked(r) !in f.log && Finishing(g) !in f.log {
        GrpAdd(g, r);
        GrownByMember(f0, g, r);
        OneAdded(f0.log, Added(g, r));
      }
      GrownFacts(f0, f);
    }

    /**
     * Anything user code may do in one step. At most `tunings` times it may still change a limit or a feeder;
     * `left` is what remains of that.
     */
    method UserStep(tunings: nat) returns (left: nat)
      requires Valid()
      modifies this`f, f.live`groupAdd, f.live`size, f.live`grp, f.live`grpPrev, f.live`grpNext, f.live`grpFirst,
        f.live`cancelled, f.live`hasFeed, f.live`int2
      ensures Valid() && Grown(old(f), f) && fresh(f.live - old(f.live))
      ensures forall g :: g in old(f.live) && g.groupAdd ==> old(g.groupAdd) || Longer(old(f), f, g)
      ensures left <= tunings && (left == tunings ==> Untuned(old(f), f))
      decreases tunings, 1
    {
      hide Inv, AllFields, AllLinks, CalmLog, FlagsAppended, Grown;
      left := tunings;
      ghost var f0 := f;
      GrownRefl(f);
      NothingAdded(f.log);
      LiveEver(f);
      var op: int := *;
      if op == 0 {
        MakeOne();
      } else if op == 1 {
        TryRerank();
      } else if f.live != {} {
        var g, r :| g in f.live && r in f.live;
        if op == 2 {
          TryAdd(g, r);
        } else if op == 3 {
          left := TryRetune(g, tunings);
        } else {
          CancelOne(r);
        }
      }
      GrownFacts(f0, f);
    }

    method CancelOne(r: Request)
      requires Valid() && r in f.live
      modifies this`f, f.live`cancelled
      ensures Valid() && Grown(old(f), f) && f.live == old(f.live)
      ensures Untuned(old(f), f)
    {
      hide Inv, AllFields, AllLinks, FlagsAppended, Grown;
      ghost var f0 := f;
      LiveEver(f);
      EioCancel(r);
      GrownByFlags(f0, f);
      FlagsAddNothing(f0.log, f.log);
    }

    method TryRetune(g: Request, tunings: nat) returns (left: nat)
      requires Valid() && g in f.live
      modifies this`f, f.live`groupAdd, f.live`size, f.live`grp, f.live`grpPrev, f.live`grpNext, f.live`grpFirst,
        f.live`cancelled, f.live`hasFeed, f.live`int2
      ensures Valid() && Grown(old(f), f) && fresh(f.live - old(f.live))
      ensures forall g :: g in old(f.live) && g.groupAdd ==> old(g.groupAdd) || Longer(old(f), f, g)
      ensures left <= tunings && (left == tunings ==> Untuned(old(f), f))
      decreases tunings, 0
    {
      hide Inv, AllFields, AllLinks, Grown;
      left := tunings;
      GrownRefl(f);
      if tunings > 0 && g.isGroup && Finishing(g) !in f.log {
        left := Retune(g, tunings - 1);
      }
    }

    /** User code makes a request. */
    method MakeOne()
      requires Valid()
      modifies this`f
      ensures Valid() && Grown(old(f), f) && fresh(f.live - old(f.live))
      ensures Untuned(old(f), f)
    {
      hide Inv, AllFields, AllLinks, Grown;
      ghost var f0 := f;
      LiveEver(f);
      var isGroup: bool := *;
      var hasFinish: bool := *;
      var r := Create(isGroup, hasFinish);
      GrownByNew(f0, r);
    }

    method TryRerank()
      requires Valid()
      modifies this`f
      ensures Valid() && Grown(old(f), f) && f.live == old(f.live)
      ensures Untuned(old(f), f)
    {
      hide Inv, AllFields, AllLinks, Grown;
      ghost var f0 := f;
      GrownRefl(f);
      var rank: map<Request, nat> := *;
      if Ranks(f, rank) {
        Rerank(rank);
        GrownByRank(f0, rank);
      }
    }

    /** User code gives a group a new limit, or a new limit and feeder. */
    method Retune(g: Request, tunings: nat) returns (left: nat)
      requires Valid() && g in f.live && g.isGroup && Finishing(g) !in f.log
      modifies this`f, f.live`groupAdd, f.live`size, f.live`grp, f.live`grpPrev, f.live`grpNext, f.live`grpFirst,
        f.live`cancelled, f.live`hasFeed, f.live`int2
      ensures Valid() && Grown(old(f), f) && fresh(f.live - old(f.live))
      ensures forall g :: g in old(f.live) && g.groupAdd ==> old(g.groupAdd) || Longer(old(f), f, g)
      ensures left <= tunings
      decreases tunings, 7
    {
      hide Inv, AllFields, AllLinks, Grown, FedSince, AllProductive, OnlyFeeds, EarlierProductive;
      var newFeed: bool := *;
      var feed: bool := *;
      var limit: int := *;
      if newFeed {
        left := GrpFeed(g, feed, limit, tunings);
      } else {
        left := GrpLimit(g, limit, tunings);
      }
    }

    /**
     * A finish callback or a feeder: any sequence of well-behaved operations. It may make requests,
     * add requests to groups that are not finishing, without making a cycle, cancel anything, and up to
     * `tunings` times change the limit or the feeder of such a group, which feeds that group at once.
     */
    method UserCode(tunings: nat) returns (res: int, left: nat)
      requires Valid()
      modifies this`f, f.live`groupAdd, f.live`size, f.live`grp, f.live`grpPrev, f.live`grpNext, f.live`grpFirst,
        f.live`cancelled, f.live`hasFeed, f.live`int2
      ensures Valid() && Grown(old(f), f) && fresh(f.live - old(f.live))
      ensures forall g :: g in old(f.live) && g.groupAdd ==> old(g.groupAdd) || Longer(old(f), f, g)
      ensures left <= tunings && (left == tunings ==> Untuned(old(f), f))
      decreases tunings, 2
    {
      hide Inv, AllFields, AllLinks, CalmLog, OnlyFlags, Grown;
      res := *;
      left := tunings;
      var n: nat := *;
      ghost var f0 := f;
      GrownRefl(f);
      LiveEver(f);
      while n > 0
        invariant Valid() && Grown(f0, f) && fresh(f.live - f0.live) && f0.live <= f.live
        invariant forall g :: g in f0.live && g.groupAdd ==> old(g.groupAdd) || Longer(f0, f, g)
        invariant left <= tunings && (left == tunings ==> Untuned(f0, f))
        decreases n
      {
        n := n - 1;
        ghost var f1 := f;
        left := UserStep(left);
        GrownFacts(f0, f1);
        GrownFacts(f1, f);
        GrownTrans(f0, f1, f);
        AddedTrans(f0.log, f1.log, f.log);
      }
    }

    /** One more event of the neutral kinds other than a cancellation. */
    method Record(e: Event)
      requires Valid() && OkNext(f.log, e) && Neutral(e) && !e.Flagged? && Mentioned(e) <= f.live
      modifies this`f
      ensures Valid() && f == WithEvent(old(f), e)
    {
      hide Inv, FieldsMatch, Linked;
      ghost var was := f;
      LiveEver(f);
      EventKeeps(f, e);
      f := WithEvent(f, e);
      forall x | x in f.live
        ensures FieldsOk(f, x) && ListLinks(f.lists[x], x)
      {
        assert old(FieldsOk(f, x));
        EventFields(was, e, x, x.size, x.int1, x.cancelled, x.grp);
        assert old(ListLinks(f.lists[x], x));
      }
    }

    /** The locked section of etp_cancel: set the cancelled flag. */
    method Flag(req: Request)
      requires Valid() && req in f.live
      modifies this`f, req`cancelled
      ensures Valid() && req.cancelled && f == WithEvent(old(f), Flagged(req))
    {
      hide Inv, FieldsMatch, Linked;
      ghost var was := f;
      var e := Flagged(req);
      LiveEver(f);
      EventKeeps(f, e);
      req.cancelled := true;
      f := WithEvent(f, e);
      forall x | x in f.live
        ensures FieldsOk(f, x) && ListLinks(f.lists[x], x)
      {
        assert old(FieldsOk(f, x));
        EventFields(was, e, x, x.size, x.int1, old(x.cancelled), x.grp);
        assert old(ListLinks(f.lists[x], x)) && NodesOf(f.lists[x]) == old(NodesOf(f.lists[x]));
      }
    }

    /** eio_cancel: flags exactly the request and its transitive members. */
    method EioCancel(req: Request)
      requires Valid() && req in f.live && WellRanked(f.lists, f.rank)
      modifies this`f, f.live`cancelled
      ensures Valid() && OnlyFlags(old(f), f)
      ensures forall x :: x in f.live ==> (x.cancelled <==> old(x.cancelled) || Under(f.lists, f.rank, req, x))
      decreases f.rank[req], 1
    {
      hide Inv, AllFields, AllLinks, WellRanked, FlagsAppended;
      LiveEver(f);
      FlagsAppendedOne(f.log, req);
      ghost var log := f.log;
      Flag(req);
      ghost var flagged := f.log;
      GrpCancel(req);
      FlagsAppendedTrans(log, flagged, f.log);
      assert forall x :: x in f.live ==>
        (Under(f.lists, f.rank, req, x) <==> x == req || UnderSome(f.lists, f.rank, f.lists[req], x));
    }

    /** eio_grp_cancel: flags what is below the group, but not the group. */
    method GrpCancel(grp: Request)
      requires Valid() && grp in f.live && WellRanked(f.lists, f.rank)
      modifies this`f, f.live`cancelled
      ensures Valid() && OnlyFlags(old(f), f)
      ensures forall x :: x in f.live ==>
        (x.cancelled <==> old(x.cancelled) || UnderSome(f.lists, f.rank, f.lists[grp], x))
      decreases f.rank[grp], 0
    {
      hide Inv, AllFields, Linked, Under, UnderSome, WellRanked, FlagsAppended;
      ghost var list, i := f.lists[grp], 0;
      LiveEver(f);
      ListStart(f, grp);
      NoneUnder(f.lists, f.rank);
      FlagsAppendedOne(f.log, grp);
      var cur := grp.grpFirst;
      while cur != null
        invariant 0 <= i <= |list| && cur == (if i == |list| then null else list[i])
        invariant Valid() && OnlyFlags(old(f), f)
        invariant forall x :: x in f.live ==>
          (x.cancelled <==> old(x.cancelled) || UnderSome(f.lists, f.rank, list[..i], x))
        decreases |list| - i
      {
        TakeNext(list, i);
        UnderNext(f.lists, f.rank, list[..i], list[i]);
        ghost var log := f.log;
        EioCancel(cur);
        FlagsAppendedTrans(old(f.log), log, f.log);
        ListNext(f, grp, list, i);
        cur := cur.grpNext;
        i := i + 1;
      }
      assert list[..i] == list;
    }

    // assignments to fields the forest does not depend on
    method PutGroupAdd(g: Request, b: bool)
      requires Valid()
      modifies g`groupAdd
      ensures Valid() && g.groupAdd == b
    {
      hide Inv, FieldsMatch, Linked;
      g.groupAdd := b;
      assert forall x :: x in f.live ==>
        && old(FieldsOk(f, x)) && old(ListLinks(f.lists[x], x))
        && NodesOf(f.lists[x]) == old(NodesOf(f.lists[x]));
    }

    method PutFeed(g: Request, b: bool)
      requires Valid()
      modifies g`hasFeed
      ensures Valid() && g.hasFeed == b
      ensures Feeds() == if g in f.live then old(Feeds())[g := Feed(g.int2, b)] else old(Feeds())
    {
      hide Inv, FieldsMatch, Linked;
      g.hasFeed := b;
      assert forall x :: x in f.live ==>
        && old(FieldsOk(f, x)) && old(ListLinks(f.lists[x], x))
        && NodesOf(f.lists[x]) == old(NodesOf(f.lists[x]));
    }

    method PutLimit(g: Request, limit: int)
      requires Valid()
      modifies g`int2
      ensures Valid() && g.int2 == limit
    {
      hide Inv, FieldsMatch, Linked;
      g.int2 := limit;
      assert forall x :: x in f.live ==>
        && old(FieldsOk(f, x)) && old(ListLinks(f.lists[x], x))
        && NodesOf(f.lists[x]) == old(NodesOf(f.lists[x]));
    }

    /** EIO_FEED: one call of the feeder. */
    method RunFeeder(grp: Request, tunings: nat) returns (left: nat)
      requires Valid() && grp in f.live && grp.isGroup && Finishing(grp) !in f.log && !grp.cancelled && grp.hasFeed
      modifies this`f, f.live`groupAdd, f.live`size, f.live`grp, f.live`grpPrev, f.live`grpNext, f.live`grpFirst,
        f.live`cancelled, f.live`hasFeed, f.live`int2
      ensures Valid() && Grown(old(f), f) && fresh(f.live - old(f.live)) && FedSince(old(f.log), f.log, grp)
      ensures CalmLog(old(f.log), f.log)
      ensures forall g :: g in old(f.live) && g.groupAdd ==> old(g.groupAdd) || Longer(old(f), f, g)
      ensures left <= tunings
      ensures left == tunings ==> SameFeeds(old(Feeds()), Feeds())
      ensures Prefix(old(f.log) + [Fed(grp)], f.log)
      ensures left == tunings ==> NoFeeds(old(f.log) + [Fed(grp)], f.log)
      ensures left == tunings && !old(grp.groupAdd) ==>
        (grp.groupAdd <==> AddedTo(old(f.log) + [Fed(grp)], f.log, grp))
      decreases tunings, 3
    {
      hide Inv, AllFields, AllLinks, CalmLog, Grown, FedSince, NoFeeds, AddedTo;
      ghost var f1 := f;
      FeedAllowed(f, grp);
      Record(Fed(grp));
      GrownByFeed(f1, grp);
      ghost var f2 := f;
      var _, rest := UserCode(tunings);
      left := rest;
      GrownTrans(f1, f2, f);
      GrownRefl(f1);
      GrownFacts(f1, f1);
      GrownFacts(f2, f);
      FedNow(f1.log, f1.log, f.log, grp);
      GrownFacts(f1, f);
    }

    /**
     * One turn of the loop of grp_try_feed: clear the flag, call the feeder, and drop it if the flag is still
     * clear. `more` tells whether the loop goes on.
     */
    method FeedTurn(grp: Request, tunings: nat) returns (left: nat, more: bool)
      requires Valid() && grp in f.live && grp.isGroup && Finishing(grp) !in f.log && !grp.cancelled
      modifies this`f, f.live`groupAdd, f.live`size, f.live`grp, f.live`grpPrev, f.live`grpNext, f.live`grpFirst,
        f.live`cancelled, f.live`hasFeed, f.live`int2
      ensures Valid() && Grown(old(f), f) && fresh(f.live - old(f.live))
      ensures forall g :: g in old(f.live) && g.groupAdd ==> old(g.groupAdd) || Longer(old(f), f, g)
      ensures left <= tunings && (more ==> left < tunings || Longer(old(f), f, grp))
      ensures !more ==> !grp.hasFeed
      ensures !old(grp.hasFeed) ==> !more && left == tunings && f == old(f)
      ensures old(grp.hasFeed) ==> Prefix(old(f.log) + [Fed(grp)], f.log) && FedSince(old(f.log), f.log, grp)
      ensures old(grp.hasFeed) && left == tunings ==> NoFeeds(old(f.log) + [Fed(grp)], f.log)
      ensures old(grp.hasFeed) && left == tunings ==> (more <==> AddedTo(old(f.log) + [Fed(grp)], f.log, grp))
      ensures left == tunings ==>
        if more then SameFeeds(old(Feeds()), Feeds()) else FeederGone(old(Feeds()), Feeds(), grp)
      decreases tunings, 4
    {
      hide Inv, AllFields, AllLinks, CalmLog, Grown, FedSince, NoFeeds, AddedTo, SameFeeds;
      left := tunings;
      ghost var f0, feeds0 := f, Feeds();
      GrownRefl(f);
      GrownFacts(f, f);
      SameFeedsRefl(feeds0);
      PutGroupAdd(grp, false);
      if grp.hasFeed {
        left := RunFeeder(grp, left);
        GrownFacts(f0, f);
      }
      more := grp.groupAdd;
      if !more {
        FeederDrops(feeds0, Feeds(), grp);
        PutFeed(grp, false);
      }
    }

    /**
     * grp_try_feed: run the feeder until the group is full, cancelled, or the feeder adds nothing. It
     * terminates if user code, nested as it may be, changes limits and feeders finitely often.
     */
    method GrpTryFeed(grp: Request, tunings: nat) returns (left: nat)
      requires Valid() && grp in f.live && grp.isGroup && Finishing(grp) !in f.log
      modifies this`f, f.live`groupAdd, f.live`size, f.live`grp, f.live`grpPrev, f.live`grpNext, f.live`grpFirst,
        f.live`cancelled, f.live`hasFeed, f.live`int2
      ensures Valid() && Grown(old(f), f) && fresh(f.live - old(f.live))
      ensures forall g :: g in old(f.live) && g.groupAdd ==> old(g.groupAdd) || Longer(old(f), f, g)
      ensures old(f.live) <= f.live
      ensures left <= tunings && (left == tunings ==> FeedersKept(old(f.log), old(Feeds()), f.log, Feeds()))
      ensures left == tunings ==> OnlyFeeds(old(f.log), f.log, grp) && EarlierProductive(old(f.log), f.log, grp)
      ensures Served(grp)
      ensures old(grp.size >= AsSize(grp.int2) || grp.cancelled) ==> f == old(f) && grp.hasFeed == old(grp.hasFeed)
      ensures grp.hasFeed ==> old(grp.hasFeed)
      ensures old(grp.hasFeed) && !grp.hasFeed ==> FedSince(old(f.log), f.log, grp)
      ensures old(!Served(grp)) ==> FedSince(old(f.log), f.log, grp)
      decreases tunings, 5
    {
      hide Inv, AllFields, AllLinks, CalmLog, Grown, FedSince, NoFeeds, OnlyFeeds, AllProductive, EarlierProductive,
        AddedTo, GoodFeedings, Longer, SameFeeds, FeederGone, FeedersKept;
      left := tunings;
      ghost var f0, feeds0, ran := f, Feeds(), false;
      var more := true;
      SameFeedsRefl(feeds0);
      GrownRefl(f);
      GrownFacts(f0, f);
      GroupFacts(f, grp);
      NothingFed(f.log, grp);
      while more && grp.size < AsSize(grp.int2) && !grp.cancelled
        invariant Valid() && Grown(f0, f) && fresh(f.live - f0.live) && f0.live <= f.live && |f0.log| <= |f.log|
        invariant grp in f.live && grp in f.lists && grp.size == |f.lists[grp]| && Finishing(grp) !in f.log
        invariant forall g :: g in f0.live && g.groupAdd ==> old(g.groupAdd) || Longer(f0, f, g)
        invariant left <= tunings
        invariant left == tunings && more ==> SameFeeds(feeds0, Feeds()) && GoodFeedings(f0.log, f.log, grp)
        invariant left == tunings && !more ==> FeedersKept(f0.log, feeds0, f.log, Feeds())
        invariant left == tunings && !more ==> OnlyFeeds(f0.log, f.log, grp) && EarlierProductive(f0.log, f.log, grp)
        invariant !more ==> !grp.hasFeed && (ran || old(!grp.hasFeed))
        invariant ran ==> old(!Served(grp)) && FedSince(f0.log, f.log, grp)
        invariant !ran ==> f == f0 && grp.hasFeed == old(grp.hasFeed)
        invariant !ran && more ==> grp.size == old(grp.size) && grp.int2 == old(grp.int2)
        invariant !ran && more ==> grp.cancelled == old(grp.cancelled)
        invariant !ran && !more ==> old(grp.size < AsSize(grp.int2) && !grp.cancelled)
        decreases more, left, AsSize(grp.int2) - grp.size
      {
        ghost var f1, feeds1, left1 := f, Feeds(), left;
        ghost var feeds := grp.hasFeed;
        left, more := FeedTurn(grp, left);
        AfterFeeding(f0, f1, f, grp);
        GroupFacts(f, grp);
        if left == left1 && more {
          SameFeedsAt(feeds1, Feeds(), grp);
        }
        if feeds {
          ran := true;
          if left == tunings {
            OneMoreFeeding(f0.log, f1.log, f.log, grp);
            AfterTurn(f0.log, feeds0, feeds1, f.log, Feeds(), grp, more);
          }
        } else if left == tunings {
          GoodFeedingsMean(f0.log, f.log, grp);
          AfterTurn(f0.log, feeds0, feeds1, f.log, Feeds(), grp, false);
        }
      }
      if left == tunings && more {
        GoodFeedingsMean(f0.log, f.log, grp);
        FeedersStay(f0.log, feeds0, f.log, Feeds());
      }
    }

    /** Entering eio_finish. */
    method Begin(req: Request)
      requires Valid() && req in f.live && req in f.lists && f.lists[req] == [] && OkNext(f.log, Finishing(req))
      modifies this`f
      ensures Valid() && f == WithFinishing(old(f), req)
    {
      hide Inv, FieldsMatch, Linked;
      ghost var was := f;
      FinishingKeeps(f, req);
      f := WithFinishing(f, req);
      forall x | x in f.live
        ensures FieldsOk(f, x) && ListLinks(f.lists[x], x)
      {
        assert old(FieldsOk(f, x));
        FinishingFields(was, req, x, x.size, x.int1, x.cancelled, x.grp);
        assert old(ListLinks(f.lists[x], x));
      }
    }

    /** The unlinking in eio_finish, with the decrement of the size that heads grp_dec. */
    method Unlink(req: Request) returns (grp: Request, k: nat)
      requires Valid() && req in f.live && req.grp != null && Unlinked(req) !in f.log && Finishing(req) in f.log
      requires Answered(f.log, req)
      modifies this`f, f.live`size, f.live`grpPrev, f.live`grpNext, f.live`grpFirst
      ensures Valid() && grp == old(req.grp) && grp in old(f.live) && grp in old(f.lists) && grp.isGroup &&
        Finishing(grp) !in old(f.log)
      ensures k < |old(f).lists[grp]| && old(f).lists[grp][k] == req && f == WithoutMember(old(f), grp, k)
    {
      hide Inv, FieldsMatch, Linked;
      ghost var was := f;
      grp := req.grp;
      MemberIndex(f, req);
      k :| 0 <= k < |f.lists[grp]| && f.lists[grp][k] == req;
      UnlinkKeeps(f, grp, k);
      ListStart(f, grp);
      NotListed(f, grp, req, grp);
      UnlinkNode(grp, req, f.lists[grp], k);
      f := WithoutMember(f, grp, k);
      forall x | x in f.live
        ensures FieldsOk(f, x)
      {
        assert old(FieldsOk(f, x));
        UnlinkedFields(was, grp, k, x, old(x.size), x.int1, x.cancelled, x.grp);
      }
      forall x | x in f.live
        ensures ListLinks(f.lists[x], x)
      {
        NotListed(was, grp, req, x);
        if x != grp {
          assert NodesOf(f.lists[x]) == old(NodesOf(f.lists[x]));
        }
      }
      UnlinkedMembers(was, grp, k);
    }

    /** eio_destroy: the request is gone. */
    method Destroy(req: Request)
      requires Valid() && req in f.live && OkNext(f.log, Destroyed(req))
      modifies this`f
      ensures Valid() && f == WithoutRequest(old(f), req)
    {
      hide Inv, FieldsMatch, Linked;
      ghost var was := f;
      DestroyKeeps(f, req);
      LiveEver(was);
      NoMembersLeft(was, req);
      f := WithoutRequest(f, req);
      forall x | x in f.live
        ensures FieldsOk(f, x) && ListLinks(f.lists[x], x)
      {
        assert old(FieldsOk(f, x));
        DestroyedFields(was, req, x, x.size, x.int1, x.cancelled, x.grp);
        assert old(ListLinks(f.lists[x], x));
      }
      DestroyedMembers(was, req);
    }

    /** One call of the finish callback. */
    method RunFinish(req: Request, tunings: nat) returns (res: int, left: nat)
      requires Valid() && req in f.live && SettledBut(f, {}) && forall r :: OkNext(f.log, Called(req, r))
      modifies this`f, f.live`groupAdd, f.live`size, f.live`grp, f.live`grpPrev, f.live`grpNext, f.live`grpFirst,
        f.live`cancelled, f.live`hasFeed, f.live`int2
      ensures Valid() && SettledBut(f, {}) && fresh(f.live - old(f.live)) && old(f.live) <= f.live
      ensures Keeps(old(f), f, {}, res) && Answered(f.log, req)
      ensures Unlinked(req) in f.log ==> Unlinked(req) in old(f.log)
      ensures forall g :: g in old(f.live) && g in old(f).lists && req in old(f).lists[g] ==>
        g in f.lists && req in f.lists[g]
      ensures left <= tunings && (left == tunings ==> NoFeeds(old(f.log), f.log))
      ensures left == tunings ==> SameFeeds(old(Feeds()), Feeds())
    {
      hide Inv, AllFields, AllLinks, CalmLog, Grown, SettledBut, Keeps, OkNext, WasAdded, Answered;
      hide NoFeeds, AddedTo, EndsWith;
      ghost var f0, feeds0 := f, Feeds();
      LiveEver(f);
      var answer: int := *;
      res := answer;
      Record(Called(req, answer));
      ghost var f1, feeds1 := f, Feeds();
      assert feeds1 == feeds0;
      KeepsCalled(f0, req, answer);
      var _, rest := UserCode(tunings);
      left := rest;
      GrownFacts(f1, f);
      GrownMembers(f1, f, req);
      KeepsGrown(f1, f);
      KeepsTrans(f0, f1, f, answer, 0);
      KeepsAnswered(f1, f, req, 0);
      QuietAfter(f0.log, Called(req, answer), f.log);
    }

    /** The head of eio_finish: the finish callback runs unless the request was cancelled. */
    method Invoke(req: Request, tunings: nat) returns (res: int, left: nat)
      requires Valid() && req in f.live && req in f.lists && f.lists[req] == []
      requires Polled(req) in f.log && Finishing(req) !in f.log && SettledBut(f, {req})
      modifies this`f, f.live`groupAdd, f.live`size, f.live`grp, f.live`grpPrev, f.live`grpNext, f.live`grpFirst,
        f.live`cancelled, f.live`hasFeed, f.live`int2
      ensures Valid() && SettledBut(f, {}) && fresh(f.live - old(f.live)) && req in f.live && Unlinked(req) !in f.log
      ensures Keeps(WithFinishing(old(f), req), f, {}, res) && Answered(f.log, req)
      ensures old(f.live) <= f.live
      ensures forall g :: g in old(f.live) && g in old(f).lists && req in old(f).lists[g] ==>
        g in f.lists && req in f.lists[g]
      ensures left <= tunings && (left == tunings ==> NoFeeds(old(f.log), f.log))
      ensures left == tunings ==> SameFeeds(old(Feeds()), Feeds())
    {
      hide Inv, AllFields, AllLinks, SettledBut, Keeps, OkNext, WasAdded, Answered, NoFeeds, SameFeeds;
      ghost var f0 := f;
      left := tunings;
      SameFeedsRefl(Feeds());
      LiveEver(f);
      FinishAllowed(f, req);
      Begin(req);
      ghost var f1 := f;
      KeepsBegin(f0, req);
      KeepsRefl(f1);
      NotUnlinked(f0, req);
      res := 0;
      NotAnswered(f1, req);
      PrefixSame(f1.log);
      if req.hasFinish && !req.cancelled {
        CalledAllowed(f0, f1, req);
        res, left := RunFinish(req, tunings);
      }
      KeepsFacts(f1, f, res);
      QuietAfter(f0.log, Finishing(req), f.log);
    }

    /**
     * eio_finish. Runs the finish callback unless the request was cancelled, unlinks the request,
     * lets its group refill or finish in turn, and destroys the request. It terminates because every
     * round up the tree uses up one delayed group. The result is the first callback result that is
     * not zero.
     */
    method EioFinish(req: Request, tunings: nat) returns (res: int, left: nat)
      requires Valid() && req in f.live && req in f.lists && f.lists[req] == []
      requires Polled(req) in f.log && Finishing(req) !in f.log && SettledBut(f, {req})
      modifies this`f, f.live`groupAdd, f.live`size, f.live`grp, f.live`grpPrev, f.live`grpNext, f.live`grpFirst,
        f.live`cancelled, f.live`hasFeed, f.live`int2
      ensures Valid() && SettledBut(f, {}) && fresh(f.live - old(f.live))
      ensures req !in f.live && Keeps(old(f), f, {req}, res)
      ensures forall g :: g in old(f.live) && g in old(f).lists && req in old(f).lists[g] && g in f.live ==> Served(g)
      ensures left <= tunings && (left == tunings ==> FeedersKept(old(f.log), old(Feeds()), f.log, Feeds()))
      decreases |f.delayed - {req}|, 2
    {
      hide Inv, AllFields, AllLinks, SettledBut, Keeps, OkNext, WasAdded, Answered;
      hide NoFeeds, AllProductive, SameFeeds, FeedersKept, FeedsOf;
      ghost var f0, feeds0, f1 := f, Feeds(), WithFinishing(f, req);
      KeepsBegin(f0, req);
      res, left := Invoke(req, tunings);
      ghost var f3, feeds3 := f, Feeds();
      KeepsFacts(f1, f3, res);
      SubsetSize(f3.delayed, f0.delayed - {req});
      var res2, rest := LeaveGroup(req, left);
      left := rest;
      ghost var f5, feeds5 := f, Feeds();
      KeepsTrans(f1, f3, f5, res, res2);
      KeepsFacts(f3, f5, res2);
      if res == 0 && res2 != 0 {
        res := res2;
      }
      if left == tunings {
        KeptAfter(f0.log, feeds0, f3.log, feeds3, f5.log, feeds5);
        KeptDestroy(f0.log, feeds0, f5.log, feeds5, req);
      }
      KeepsFacts(f1, f5, res);
      DestroyAllowed(f, req);
      assert fresh(f5.live - f0.live);
      Destroy(req);
      assert f.live <= f5.live;
      FeedsWithout(f5.live, req);
      KeepsDestroy(f0, f1, f5, req, res);
    }

    /** The part of eio_finish for a member of a group: leave it, and see what the group does then. */
    method LeaveGroup(req: Request, tunings: nat) returns (res: int, left: nat)
      requires Valid() && req in f.live && SettledBut(f, {})
      requires Finishing(req) in f.log && Unlinked(req) !in f.log && Answered(f.log, req)
      modifies this`f, f.live`groupAdd, f.live`size, f.live`grp, f.live`grpPrev, f.live`grpNext, f.live`grpFirst,
        f.live`cancelled, f.live`hasFeed, f.live`int2
      ensures Valid() && SettledBut(f, {}) && fresh(f.live - old(f.live))
      ensures Keeps(old(f), f, {}, res) && Answered(f.log, req) && (WasAdded(f.log, req) ==> Unlinked(req) in f.log)
      ensures forall g :: g in old(f.live) && g in old(f).lists && req in old(f).lists[g] && g in f.live ==> Served(g)
      ensures left <= tunings && (left == tunings ==> FeedersKept(old(f.log), old(Feeds()), f.log, Feeds()))
      decreases |f.delayed|, 1
    {
      hide Inv, AllFields, AllLinks, SettledBut, Keeps, OkNext, WasAdded, Answered, NoFeeds, AddedTo, AllProductive,
        SameFeeds, FeedersKept;
      res, left := 0, tunings;
      ghost var f0, feeds0 := f, Feeds();
      SameFeedsRefl(feeds0);
      if req.grp == null {
        NeverLinked(f, req);
        NoGroup(f, req);
        KeepsRefl(f);
        PrefixSame(f.log);
        KeptSame(f.log, feeds0, f.log, feeds0);
      } else {
        var grp, k := Unlink(req);
        ghost var f1 := f;
        OnlyGroup(f0, grp, req);
        KeepsUnlink(f0, grp, k);
        KeepsFacts(f0, f1, 0);
        SubsetSize(f1.delayed, f0.delayed);
        KeepsAnswered(f0, f1, req, 0);
        res, left := GrpDec(grp, tunings);
        KeepsTrans(f0, f1, f, 0, res);
        KeepsFacts(f1, f, res);
        KeepsAnswered(f1, f, req, res);
        if left == tunings {
          OneAdded(f0.log, Unlinked(req));
          KeptAfter(f0.log, feeds0, f1.log, feeds0, f.log, Feeds());
        }
      }
    }

    /** grp_dec, after the decrement: refill the group, and finish it if it was waiting for this. */
    method GrpDec(grp: Request, tunings: nat) returns (res: int, left: nat)
      requires Valid() && grp in f.live && grp.isGroup && Finishing(grp) !in f.log && SettledBut(f, {grp})
      modifies this`f, f.live`groupAdd, f.live`size, f.live`grp, f.live`grpPrev, f.live`grpNext, f.live`grpFirst,
        f.live`cancelled, f.live`hasFeed, f.live`int2
      ensures Valid() && SettledBut(f, {}) && fresh(f.live - old(f.live))
      ensures Keeps(old(f), f, {}, res)
      ensures old(!Served(grp)) ==> FedSince(old(f.log), f.log, grp)
      ensures grp in f.live ==> Served(grp)
      ensures left <= tunings && (left == tunings ==> FeedersKept(old(f.log), old(Feeds()), f.log, Feeds()))
      decreases |f.delayed|, 0
    {
      hide Inv, AllFields, AllLinks, CalmLog, Grown, SettledBut, Keeps, OkNext, WasAdded;
      hide FedSince, AllProductive, OnlyFeeds, EarlierProductive, FeedersKept;
      ghost var f0, feeds0 := f, Feeds();
      left := GrpTryFeed(grp, tunings);
      ghost var f1, feeds1 := f, Feeds();
      KeepsGrown(f0, f1);
      GrownFacts(f0, f1);
      CalmSame(f0.log, f1.log);
      GroupState(f1, grp);
      if grp.size == 0 && grp.int1 != 0 {
        assert f1.delayed - {grp} < f1.delayed;
        SmallerSet(f1.delayed - {grp}, f1.delayed);
        var rest: nat;
        res, rest := EioFinish(grp, left);
        left := rest;
        KeepsOthers(f1, f, grp, res);
        KeepsFacts(f1, f, res);
        KeepsTrans(f0, f1, f, 0, res);
        if old(!Served(grp)) {
          FedLonger(f0.log, f1.log, f.log, grp);
        }
        if left == tunings {
          KeptFinish(f0.log, feeds0, f1.log, feeds1, f.log, Feeds(), grp);
        }
      } else {
        res := 0;
        NowSettled(f1, grp);
      }
    }

    /** A group polled while it has members is delayed. */
    method Delay(req: Request)
      requires Valid() && req in f.live && req.isGroup && Polled(req) !in f.log
      modifies this`f, req`int1
      ensures Valid() && f == WithDelayed(old(f), req)
    {
      hide Inv, FieldsMatch, Linked;
      ghost var was := f;
      BeforePolled(f, req);
      DelayKeeps(f, req);
      req.int1 := 1;
      f := WithDelayed(f, req);
      forall x | x in f.live
        ensures FieldsOk(f, x) && ListLinks(f.lists[x], x)
      {
        assert old(FieldsOk(f, x));
        DelayedFields(was, req, x, x.size, old(x.int1), x.cancelled, x.grp);
        assert old(ListLinks(f.lists[x], x)) && NodesOf(f.lists[x]) == old(NodesOf(f.lists[x]));
      }
    }

    /**
     * What eio_poll does with a request taken off the result queue: a group that still has members
     * is delayed, anything else is finished now. Afterwards no delayed group is without a member.
     */
    method PollHand(req: Request, tunings: nat) returns (res: int, left: nat)
      requires Valid() && SettledBut(f, {}) && req in f.live && Polled(req) !in f.log
      modifies this`f, f.live`groupAdd, f.live`size, f.live`grp, f.live`grpPrev, f.live`grpNext, f.live`grpFirst,
        f.live`cancelled, f.live`hasFeed, f.live`int2, req`int1
      ensures Valid() && SettledBut(f, {}) && fresh(f.live - old(f.live))
      ensures old(f.log) <= f.log
      ensures req in old(f).lists && old(f).lists[req] != [] ==> res == 0 && f == WithDelayed(old(f), req)
      ensures req in old(f).lists && old(f).lists[req] == [] ==>
        req !in f.live && Keeps(WithEvent(old(f), Polled(req)), f, {req}, res)
      ensures forall g :: g in old(f.live) && g in old(f).lists && req in old(f).lists[g] && g in f.live ==>
        (req in old(f).lists && old(f).lists[req] == [] ==> Served(g))
      ensures left <= tunings && (left == tunings ==> FeedersKept(old(f.log), old(Feeds()), f.log, Feeds()))
    {
      hide Inv, AllFields, AllLinks, Keeps, SameFeeds, FeedersKept, NoFeeds;
      ghost var f0, feeds0 := f, Feeds();
      SameFeedsRefl(feeds0);
      BeforePolled(f, req);
      MemberCount(f, req);
      if req.isGroup && req.size != 0 {
        Delay(req);
        res := 0;
        left := tunings;
        OneAdded(f0.log, Polled(req));
        KeptSame(f0.log, feeds0, f.log, feeds0);
      } else {
        Record(Polled(req));
        ghost var f1 := f;
        res, left := EioFinish(req, tunings);
        KeepsExtends(f1, f, {req}, res);
        if left == tunings {
          OneAdded(f0.log, Polled(req));
          KeptAfter(f0.log, feeds0, f1.log, feeds0, f.log, Feeds());
        }
      }
    }

    /** eio_grp_feed: set the limit and the feeder, then feed. */
    method GrpFeed(grp: Request, feed: bool, limit: int, tunings: nat) returns (left: nat)
      requires Valid() && grp in f.live && grp.isGroup && Finishing(grp) !in f.log
      modifies this`f, f.live`groupAdd, f.live`size, f.live`grp, f.live`grpPrev, f.live`grpNext, f.live`grpFirst,
        f.live`cancelled, f.live`hasFeed, f.live`int2
      ensures Valid() && Grown(old(f), f) && fresh(f.live - old(f.live))
      ensures forall g :: g in old(f.live) && g.groupAdd ==> old(g.groupAdd) || Longer(old(f), f, g)
      ensures left <= tunings && (left == tunings ==> grp.int2 == limit)
      ensures Served(grp)
      ensures feed && !grp.hasFeed ==> FedSince(old(f.log), f.log, grp)
      ensures grp.hasFeed ==> feed
      ensures feed && !old(grp.cancelled) && old(grp.size) < AsSize(limit) ==> FedSince(old(f.log), f.log, grp)
      ensures left == tunings ==> (grp.hasFeed <==> feed && AllProductive(old(f.log), f.log, grp))
      ensures left == tunings ==> OnlyFeeds(old(f.log), f.log, grp) && EarlierProductive(old(f.log), f.log, grp)
      decreases tunings, 6
    {
      hide Inv, AllFields, AllLinks, Grown, FedSince, AllProductive, OnlyFeeds, EarlierProductive;
      PutLimit(grp, limit);
      PutFeed(grp, feed);
      ghost var feeds := Feeds();
      left := GrpTryFeed(grp, tunings);
      assert grp in feeds && grp in Feeds();
    }

    /** eio_grp_limit. */
    method GrpLimit(grp: Request, limit: int, tunings: nat) returns (left: nat)
      requires Valid() && grp in f.live && grp.isGroup && Finishing(grp) !in f.log
      modifies this`f, f.live`groupAdd, f.live`size, f.live`grp, f.live`grpPrev, f.live`grpNext, f.live`grpFirst,
        f.live`cancelled, f.live`hasFeed, f.live`int2
      ensures Valid() && Grown(old(f), f) && fresh(f.live - old(f.live))
      ensures forall g :: g in old(f.live) && g.groupAdd ==> old(g.groupAdd) || Longer(old(f), f, g)
      ensures left <= tunings && (left == tunings ==> grp.int2 == limit)
      ensures Served(grp)
      ensures old(grp.hasFeed) && !grp.hasFeed ==> FedSince(old(f.log), f.log, grp)
      ensures grp.hasFeed ==> old(grp.hasFeed)
      ensures old(grp.hasFeed && !grp.cancelled && grp.size < AsSize(limit)) ==> FedSince(old(f.log), f.log, grp)
      ensures left == tunings ==> (grp.hasFeed <==> old(grp.hasFeed) && AllProductive(old(f.log), f.log, grp))
      ensures left == tunings ==> OnlyFeeds(old(f.log), f.log, grp) && EarlierProductive(old(f.log), f.log, grp)
      decreases tunings, 6
    {
      hide Inv, AllFields, AllLinks, Grown, FedSince, AllProductive, OnlyFeeds, EarlierProductive;
      PutLimit(grp, limit);
      ghost var feeds := Feeds();
      left := GrpTryFeed(grp, tunings);
      assert grp in feeds && grp in Feeds();
    }

    /** Whatever the code did to reach this state, it kept the promises about callbacks and lifetimes. */
    lemma PromisesKept()
      requires Valid()
      ensures Promises(f.log)
    {
      hide Promises;
      GoodPromises(f.log);
    }

    /** Any run of the API thread: user code, feeding and polled requests in any order. */
    method Session()
      requires Valid() && SettledBut(f, {})
      modifies this`f, f.live
      ensures Valid() && SettledBut(f, {}) && fresh(f.live - old(f.live))
      ensures old(f.log) <= f.log && Promises(f.log)
    {
      hide Inv, AllFields, AllLinks, Keeps, Grown, SettledBut, Promises;
      var n: nat := *;
      while n > 0
        invariant Valid() && SettledBut(f, {}) && fresh(f.live - old(f.live))
        invariant old(f.log) <= f.log
        decreases n
      {
        n := n - 1;
        ghost var was := f;
        var op: int := *;
        var tunings: nat := *;
        if op == 0 || f.live == {} {
          var _, _ := UserCode(tunings);
          KeepsGrown(was, f);
          KeepsExtends(was, f, {}, 0);
        } else {
          var r :| r in f.live;
          if op == 1 && Polled(r) !in f.log {
            var _, _ := PollHand(r, tunings);
          } else if op == 2 && r.isGroup && Finishing(r) !in f.log {
            var feed: bool := *;
            var limit: int := *;
            var _ := GrpFeed(r, feed, limit, tunings);
            KeepsGrown(was, f);
            KeepsExtends(was, f, {}, 0);
          }
        }
      }
      PromisesKept();
    }
  }
}
