/** The group forest as a value: which requests exist, who is in which group, and the history. */
module GroupForest {
  import opened Requests
  import opened GroupHistory

  datatype Forest = Forest(
    ever: set<Request>,                  // every request ever made
    live: set<Request>,                  // those not yet destroyed
    lists: map<Request, seq<Request>>,   // the members of each live request, newest first
    rank: map<Request, nat>,             // a height: members rank below their group
    delayed: set<Request>,               // groups polled while they had members, not yet finishing
    log: seq<Event>)

  ghost function Mentioned(e: Event): set<Request> {
    match e
    case Added(g, m) => {g, m}
    case Polled(r) => {r}
    case Finishing(r) => {r}
    case Called(r, _) => {r}
    case Unlinked(r) => {r}
    case Fed(g) => {g}
    case Flagged(r) => {r}
    case Destroyed(r) => {r}
  }

  ghost predicate NoDup(s: seq<Request>) {
    forall i, j :: 0 <= i < j < |s| ==> s[i] != s[j]
  }

  /** `g`'s list holds exactly the requests added to it and not unlinked since. */
  ghost predicate ListOk(f: Forest, g: Request)
    requires g in f.lists
  {
    && NoDup(f.lists[g])
    && (forall m :: m in f.lists[g] ==> IsMember(f, g, m))
    && (forall e :: e in f.log && e.Added? && e.g == g && Unlinked(e.m) !in f.log ==> e.m in f.lists[g])
    && (Finishing(g) in f.log ==> f.lists[g] == [])
  }

  ghost predicate IsMember(f: Forest, g: Request, m: Request) {
    && m in f.live && m in f.rank && g in f.rank && f.rank[m] < f.rank[g]
    && Added(g, m) in f.log && Unlinked(m) !in f.log
  }

  ghost predicate DelayedOk(f: Forest, d: Request) {
    d in f.live && Polled(d) in f.log && Finishing(d) !in f.log
  }

  ghost predicate Inv(f: Forest) {
    && f.live <= f.ever && f.lists.Keys == f.live && f.rank.Keys == f.live
    && History(f.log, f.ever)
    && (forall r :: r in f.ever ==> (r in f.live <==> Destroyed(r) !in f.log))
    && Lists(f)
    && Delays(f)
  }

  ghost predicate History(log: seq<Event>, ever: set<Request>) {
    GoodHistory(log) && forall e :: e in log ==> Mentioned(e) <= ever
  }

  ghost predicate Lists(f: Forest) {
    f.live <= f.lists.Keys && forall g :: g in f.live ==> ListOk(f, g)
  }

  ghost predicate Delays(f: Forest) {
    forall d :: d in f.delayed ==> DelayedOk(f, d)
  }

  /** Every delayed group except possibly `but` still waits for a member. */
  ghost predicate SettledBut(f: Forest, but: set<Request>) {
    forall d :: d in f.delayed && d in f.lists && d !in but ==> f.lists[d] != []
  }

  // ---------------------------------------------------------------- the steps

  function WithNew(f: Forest, r: Request): Forest {
    f.(ever := f.ever + {r}, live := f.live + {r}, lists := f.lists[r := []], rank := f.rank[r := 0])
  }

  function WithEvent(f: Forest, e: Event): Forest {
    f.(log := f.log + [e])
  }

  function WithMember(f: Forest, g: Request, m: Request): Forest
    requires g in f.lists
  {
    f.(lists := f.lists[g := [m] + f.lists[g]], log := f.log + [Added(g, m)])
  }

  function WithoutMember(f: Forest, g: Request, k: nat): Forest
    requires g in f.lists && k < |f.lists[g]|
  {
    f.(lists := f.lists[g := f.lists[g][..k] + f.lists[g][k + 1..]], log := f.log + [Unlinked(f.lists[g][k])])
  }

  function WithDelayed(f: Forest, r: Request): Forest {
    f.(delayed := f.delayed + {r}, log := f.log + [Polled(r)])
  }

  function WithFinishing(f: Forest, r: Request): Forest {
    f.(delayed := f.delayed - {r}, log := f.log + [Finishing(r)])
  }

  function WithoutRequest(f: Forest, r: Request): Forest {
    f.(live := f.live - {r}, lists := f.lists - {r}, rank := f.rank - {r}, log := f.log + [Destroyed(r)])
  }

  /** Another height for the same forest; it is only bookkeeping. */
  predicate Ranks(f: Forest, rank: map<Request, nat>) {
    && rank.Keys == f.live
    && (forall g, m :: g in f.lists && m in f.lists[g] ==> g in rank && m in rank && rank[m] < rank[g])
  }

  // ---------------------------------------------------------------- each step keeps the invariant

  lemma HistoryNext(log: seq<Event>, ever: set<Request>, e: Event)
    requires History(log, ever) && OkNext(log, e) && Mentioned(e) <= ever
    ensures History(log + [e], ever)
  {
    HistoryAppend(log, e);
  }

  // one more event that neither adds, unlinks, finishes nor destroys
  ghost predicate Neutral(e: Event) {
    e.Polled? || e.Called? || e.Fed? || e.Flagged?
  }

  /** A list whose members and whose log entries are not concerned stays as it is. */
  lemma SameList(f: Forest, f': Forest, g: Request, e: Event)
    requires g in f.lists && g in f'.lists && f.lists[g] == f'.lists[g] && ListOk(f, g)
    requires f'.log == f.log + [e]
    requires e.Added? ==> e.g != g
    requires e.Unlinked? ==> e.r !in f.lists[g]
    requires e == Finishing(g) ==> f.lists[g] == []
    requires g in f'.rank && g in f.rank && f.rank[g] == f'.rank[g]
    requires forall m :: m in f.lists[g] ==> m in f'.live && m in f'.rank && m in f.rank && f.rank[m] == f'.rank[m]
    ensures ListOk(f', g)
  {
    forall m | m in f'.lists[g]
      ensures IsMember(f', g, m)
    {
      assert IsMember(f, g, m);
    }
  }

  lemma MembersLive(f: Forest, g: Request)
    requires Inv(f) && g in f.live
    ensures ListOk(f, g)
    ensures forall m :: m in f.lists[g] ==>
      m in f.live && f.rank[m] < f.rank[g] && WasAdded(f.log, m) && Unlinked(m) !in f.log
    ensures Finishing(g) in f.log ==> f.lists[g] == []
  {
    hide History;
    assert ListOk(f, g);
    forall m | m in f.lists[g]
      ensures m in f.live && f.rank[m] < f.rank[g] && WasAdded(f.log, m) && Unlinked(m) !in f.log
    {
      assert IsMember(f, g, m);
    }
  }

  /** Delayed groups stay delayed under events other than their own finishing. */
  lemma SameDelays(f: Forest, f': Forest, e: Event)
    requires Delays(f) && f'.delayed <= f.delayed && f'.log == f.log + [e]
    requires forall d :: d in f'.delayed ==> d in f'.live && e != Finishing(d)
    ensures Delays(f')
  {
    forall d | d in f'.delayed
      ensures DelayedOk(f', d)
    {
      assert DelayedOk(f, d);
    }
  }

  lemma EventKeeps(f: Forest, e: Event)
    requires Inv(f) && OkNext(f.log, e) && Neutral(e) && Mentioned(e) <= f.ever
    ensures Inv(WithEvent(f, e))
  {
    hide History, OkNext, ListOk, DelayedOk;
    var f' := WithEvent(f, e);
    HistoryNext(f.log, f.ever, e);
    forall g | g in f.live
      ensures ListOk(f', g)
    {
      MembersLive(f, g);
      SameList(f, f', g, e);
    }
    DelayedLive(f);
    SameDelays(f, f', e);
  }

  lemma DelayedLive(f: Forest)
    requires Delays(f)
    ensures f.delayed <= f.live
    ensures forall d :: d in f.delayed ==> Polled(d) in f.log && Finishing(d) !in f.log
  {
    assert forall d :: d in f.delayed ==> DelayedOk(f, d);
  }

  lemma NewKeeps(f: Forest, r: Request)
    requires Inv(f) && r !in f.ever
    ensures Inv(WithNew(f, r))
    ensures forall e :: e in f.log ==> r !in Mentioned(e)
  {
    var f' := WithNew(f, r);
    NeverMentioned(f, r);
    hide GoodHistory, ListOk, IsMember, DelayedOk, Mentioned;
    forall g | g in f'.live
      ensures ListOk(f', g)
    {
      if g == r {
        NewList(f, r);
      } else {
        OldList(f, r, g);
      }
    }
    OldDelays(f, r);
  }

  lemma OldDelays(f: Forest, r: Request)
    requires Delays(f)
    ensures Delays(WithNew(f, r))
  {
    assert forall d :: d in f.delayed ==> DelayedOk(f, d);
  }

  lemma NeverMentioned(f: Forest, r: Request)
    requires History(f.log, f.ever) && r !in f.ever
    ensures forall e :: e in f.log ==> r !in Mentioned(e)
    ensures Destroyed(r) !in f.log && Finishing(r) !in f.log
  {
    assert forall e :: e in f.log ==> r !in Mentioned(e);
    assert r in Mentioned(Destroyed(r)) && r in Mentioned(Finishing(r));
  }

  lemma NewList(f: Forest, r: Request)
    requires forall e :: e in f.log ==> r !in Mentioned(e)
    requires Finishing(r) !in f.log
    ensures ListOk(WithNew(f, r), r)
  {
    assert forall e :: e in f.log && e.Added? ==> e.g in Mentioned(e);
  }

  lemma OldList(f: Forest, r: Request, g: Request)
    requires g in f.lists && g != r && r !in f.live && ListOk(f, g)
    ensures ListOk(WithNew(f, r), g)
  {
    forall m | m in f.lists[g]
      ensures IsMember(WithNew(f, r), g, m)
    {
      assert IsMember(f, g, m);
    }
  }

  lemma RankKeeps(f: Forest, rank: map<Request, nat>)
    requires Inv(f) && Ranks(f, rank)
    ensures Inv(f.(rank := rank))
  {
    hide History;
    var f' := f.(rank := rank);
    forall g | g in f'.live
      ensures ListOk(f', g)
    {
      assert ListOk(f, g);
      assert forall m :: m in f.lists[g] ==> IsMember(f, g, m);
    }
    assert forall d :: d in f.delayed ==> DelayedOk(f, d);
  }

  lemma MemberKeeps(f: Forest, g: Request, m: Request)
    requires Inv(f) && g in f.live && m in f.live && f.rank[m] < f.rank[g]
    requires OkNext(f.log, Added(g, m))
    ensures Inv(WithMember(f, g, m))
  {
    hide History, OkNext, DelayedOk, ListOk, WasAdded;
    var e, f' := Added(g, m), WithMember(f, g, m);
    MayBeAdded(f.log, g, m);
    HistoryNext(f.log, f.ever, e);
    forall h | h in f.live
      ensures ListOk(f', h)
    {
      if h == g {
        AddOwnList(f, g, m);
      } else {
        MembersLive(f, h);
        SameList(f, f', h, e);
      }
    }
    DelayedLive(f);
    SameDelays(f, f', e);
  }

  lemma MayBeAdded(log: seq<Event>, g: Request, m: Request)
    requires OkNext(log, Added(g, m))
    ensures !WasAdded(log, m) && Unlinked(m) !in log && Finishing(g) !in log
  {
  }

  lemma AddOwnList(f: Forest, g: Request, m: Request)
    requires Inv(f) && g in f.live && m in f.live && f.rank[m] < f.rank[g]
    requires !WasAdded(f.log, m) && Unlinked(m) !in f.log && Finishing(g) !in f.log
    ensures ListOk(WithMember(f, g, m), g)
  {
    hide History, Delays;
    MembersLive(f, g);
    var f' := WithMember(f, g, m);
    assert m !in f.lists[g];
    forall x | x in f'.lists[g]
      ensures IsMember(f', g, x)
    {
      assert x != m ==> IsMember(f, g, x);
    }
  }

  /** A request is in one list at most. */
  lemma OneList(f: Forest, g: Request, h: Request, m: Request)
    requires Inv(f) && g in f.live && h in f.live && m in f.lists[g] && m in f.lists[h]
    ensures g == h
  {
    assert ListOk(f, g) && ListOk(f, h);
    assert IsMember(f, g, m) && IsMember(f, h, m);
    AddedOnce(f.log, g, h, m);
  }

  lemma AddedOnce(log: seq<Event>, g: Request, h: Request, m: Request)
    requires GoodHistory(log) && Added(g, m) in log && Added(h, m) in log
    ensures g == h
  {
    var i :| 0 <= i < |log| && log[i] == Added(g, m);
    var j :| 0 <= j < |log| && log[j] == Added(h, m);
    assert OkNext(log[..i], log[i]) && OkNext(log[..j], log[j]);
    assert !WasAdded(log[..i], m) && !WasAdded(log[..j], m);
    NotBefore(log, j, i);
    NotBefore(log, i, j);
  }

  lemma UnlinkKeeps(f: Forest, g: Request, k: nat)
    requires Inv(f) && g in f.live && k < |f.lists[g]|
    requires OkNext(f.log, Unlinked(f.lists[g][k]))
    ensures Inv(WithoutMember(f, g, k))
  {
    hide OkNext, History, ListOk, DelayedOk;
    var m, f' := f.lists[g][k], WithoutMember(f, g, k);
    MembersLive(f, g);
    assert m in f.lists[g];
    HistoryNext(f.log, f.ever, Unlinked(m));
    forall h | h in f.live
      ensures ListOk(f', h)
    {
      if h == g {
        UnlinkOwnList(f, g, k);
      } else {
        MembersLive(f, h);
        if m in f.lists[h] {
          OneList(f, g, h, m);
        }
        SameList(f, f', h, Unlinked(m));
      }
    }
    DelayedLive(f);
    SameDelays(f, f', Unlinked(m));
  }

  lemma UnlinkOwnList(f: Forest, g: Request, k: nat)
    requires Inv(f) && g in f.live && k < |f.lists[g]|
    ensures ListOk(WithoutMember(f, g, k), g)
  {
    hide History, Delays;
    var s, m, f' := f.lists[g], f.lists[g][k], WithoutMember(f, g, k);
    assert ListOk(f, g);
    assert s == s[..k] + [m] + s[k + 1..];
    assert m !in s[..k] + s[k + 1..];
    forall x | x in f'.lists[g]
      ensures IsMember(f', g, x)
    {
      assert IsMember(f, g, x);
    }
  }

  lemma DelayKeeps(f: Forest, r: Request)
    requires Inv(f) && r in f.live && OkNext(f.log, Polled(r)) && Finishing(r) !in f.log
    ensures Inv(WithDelayed(f, r))
  {
    hide OkNext, History, ListOk;
    var e, f' := Polled(r), WithDelayed(f, r);
    HistoryNext(f.log, f.ever, e);
    forall g | g in f.live
      ensures ListOk(f', g)
    {
      MembersLive(f, g);
      SameList(f, f', g, e);
    }
    DelayedLive(f);
    forall d | d in f'.delayed
      ensures DelayedOk(f', d)
    {
    }
  }

  lemma FinishingKeeps(f: Forest, r: Request)
    requires Inv(f) && r in f.live && OkNext(f.log, Finishing(r)) && f.lists[r] == []
    ensures Inv(WithFinishing(f, r))
  {
    hide OkNext, History, ListOk, DelayedOk;
    var e, f' := Finishing(r), WithFinishing(f, r);
    HistoryNext(f.log, f.ever, e);
    forall g | g in f.live
      ensures ListOk(f', g)
    {
      MembersLive(f, g);
      SameList(f, f', g, e);
    }
    DelayedLive(f);
    SameDelays(f, f', e);
  }

  lemma DestroyKeeps(f: Forest, r: Request)
    requires Inv(f) && r in f.live && OkNext(f.log, Destroyed(r))
    ensures Inv(WithoutRequest(f, r))
  {
    var e, f' := Destroyed(r), WithoutRequest(f, r);
    var ok := (WasAdded(f.log, r) ==> Unlinked(r) in f.log) && Finishing(r) in f.log;
    assert ok;
    hide OkNext, History, ListOk, DelayedOk;
    HistoryNext(f.log, f.ever, e);
    forall g | g in f'.live
      ensures ListOk(f', g)
    {
      MembersLive(f, g);
      assert r !in f.lists[g];
      SameList(f, f', g, e);
    }
    DelayedLive(f);
    SameDelays(f, f', e);
  }
}
