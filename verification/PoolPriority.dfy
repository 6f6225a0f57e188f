/**
 * Priorities over whole runs: every request keeps the priority it was submitted with, workers take the oldest
 * of the requests with the highest priority, and so does eio_poll with the results.
 */
module PoolPriority {
  import opened PoolState
  import opened RequestQueue
  import opened Requests

  // ---------------------------------------------------------------- what was submitted

  datatype Submission = Submission(id: Id, pri: int)

  /** The calls of eio_submit in a run, in order. */
  ghost function Submissions(steps: seq<Step>): seq<Submission> {
    if steps == [] then [] else SubmittedBy(steps[0]) + Submissions(steps[1..])
  }

  function SubmittedBy(a: Step): seq<Submission> {
    if a.ByUser? && a.user.Submit? then [Submission(a.user.id, a.user.pri)] else []
  }

  /** The priority that counts: saturated at -4 and 4, but the four largest values count as the lowest. */
  function Effective(pri: int): int {
    if pri < -4 || pri > 123 then -4 else if pri > 4 then 4 else pri
  }

  lemma ClampEffective(pri: int)
    requires -128 <= pri <= 127
    ensures ClampPri(pri) == Effective(pri) + 4
  {
    ClampPriMeans(pri);
  }

  /** `x` was submitted with the effective priority `p` - 4. */
  ghost predicate Asked(subs: seq<Submission>, x: Id, p: nat) {
    exists k :: 0 <= k < |subs| && subs[k].id == x && p == Effective(subs[k].pri) + 4
  }

  /** `x` was submitted before `y`. */
  ghost predicate Earlier(subs: seq<Submission>, x: Id, y: Id) {
    exists j, k :: 0 <= j < k < |subs| && subs[j].id == x && subs[k].id == y
  }

  /** Each submitted request was submitted once. */
  ghost predicate Numbered(subs: seq<Submission>, submitted: set<Id>) {
    && (forall k :: 0 <= k < |subs| ==> subs[k].id in submitted)
    && (forall j, k :: 0 <= j < k < |subs| ==> subs[j].id != subs[k].id)
  }

  // a token has the priority of a request submitted with the highest one
  ghost predicate EntryAsked(subs: seq<Submission>, e: Entry<Item>) {
    if e.item.Req? then Asked(subs, e.item.id, e.pri) else e.pri == 8
  }

  ghost predicate QueueAsked(subs: seq<Submission>, q: seq<Entry<Item>>) {
    forall j :: 0 <= j < |q| ==> EntryAsked(subs, q[j])
  }

  /** The request queue is in the order of submission. */
  ghost predicate InOrder(subs: seq<Submission>, q: seq<Entry<Item>>) {
    forall j, k :: 0 <= j < k < |q| && q[j].item.Req? && q[k].item.Req? ==> Earlier(subs, q[j].item.id, q[k].item.id)
  }

  ghost predicate WorkersAsked(subs: seq<Submission>, ws: seq<Worker>) {
    forall i :: 0 <= i < |ws| && ws[i].Got? ==> EntryAsked(subs, ws[i].e)
  }

  ghost predicate ResultsAsked(subs: seq<Submission>, q: seq<Entry<Id>>) {
    forall j :: 0 <= j < |q| ==> Asked(subs, q[j].item, q[j].pri)
  }

  ghost predicate CallAsked(subs: seq<Submission>, call: Call) {
    call.PushGroup? ==> Asked(subs, call.g, call.pri)
  }

  /** Wherever a request is, it has the priority it was submitted with. */
  ghost predicate PriorityLaw(s: State, subs: seq<Submission>) {
    && Numbered(subs, s.submitted)
    && QueueAsked(subs, s.reqq) && InOrder(subs, s.reqq)
    && WorkersAsked(subs, s.ws) && ResultsAsked(subs, s.resq) && CallAsked(subs, s.call)
  }

  // ---------------------------------------------------------------- more submissions

  lemma {:induction false} AskedMore(subs: seq<Submission>, a: Submission)
    ensures forall x, p :: Asked(subs, x, p) ==> Asked(subs + [a], x, p)
    ensures forall x, y :: Earlier(subs, x, y) ==> Earlier(subs + [a], x, y)
  {
    var all := subs + [a];
    assert forall k :: 0 <= k < |subs| ==> all[k] == subs[k];
  }

  lemma {:induction false} AskedNow(subs: seq<Submission>, a: Submission)
    ensures Asked(subs + [a], a.id, Effective(a.pri) + 4)
    ensures forall x, p :: Asked(subs, x, p) ==> Earlier(subs + [a], x, a.id)
  {
    var all := subs + [a];
    assert all[|subs|] == a && forall k :: 0 <= k < |subs| ==> all[k] == subs[k];
  }

  lemma {:induction false} LawMore(s: State, subs: seq<Submission>, a: Submission)
    requires PriorityLaw(s, subs) && a.id !in s.submitted
    ensures PriorityLaw(s.(submitted := s.submitted + {a.id}), subs + [a])
  {
    AskedMore(subs, a);
    hide Asked, Earlier;
    var all := subs + [a];
    assert forall k :: 0 <= k < |all| ==> all[k] == if k < |subs| then subs[k] else a;
  }

  // ---------------------------------------------------------------- every step keeps the law

  lemma {:induction false} PushInOrder(subs: seq<Submission>, q: seq<Entry<Item>>, e: Entry<Item>)
    requires QueueAsked(subs, q) && InOrder(subs, q) && EntryAsked(subs, e)
    requires e.item.Req? ==> forall j :: 0 <= j < |q| && q[j].item.Req? ==> Earlier(subs, q[j].item.id, e.item.id)
    ensures QueueAsked(subs, q + [e]) && InOrder(subs, q + [e])
  {
    hide Asked, Earlier;
  }

  lemma {:induction false} RemoveInOrder(subs: seq<Submission>, q: seq<Entry<Item>>, k: nat)
    requires QueueAsked(subs, q) && InOrder(subs, q) && k < |q|
    ensures QueueAsked(subs, Remove(q, k)) && InOrder(subs, Remove(q, k))
  {
    hide Asked, Earlier, EntryAsked;
    assert forall j :: 0 <= j < |q| - 1 ==> Remove(q, k)[j] == q[if j < k then j else j + 1];
  }

  lemma {:induction false} TakePriority(s: State, subs: seq<Submission>, i: nat)
    requires PriorityLaw(s, subs) && i < |s.ws|
    ensures PriorityLaw(Take(s, i), subs)
  {
    hide Numbered, InOrder, QueueAsked, ResultsAsked, CallAsked, EntryAsked, Remove, BestIndex;
    if s.reqq != [] {
      RemoveInOrder(subs, s.reqq, BestIndex(s.reqq));
      EntryOf(subs, s.reqq, BestIndex(s.reqq));
    }
  }

  lemma {:induction false} EntryOf(subs: seq<Submission>, q: seq<Entry<Item>>, k: nat)
    requires QueueAsked(subs, q) && k < |q|
    ensures EntryAsked(subs, q[k])
  {
  }

  lemma {:induction false} ResultPriority(s: State, subs: seq<Submission>, x: Id, pri: nat)
    requires PriorityLaw(s, subs) && Asked(subs, x, pri)
    ensures PriorityLaw(PushResult(s, x, pri), subs)
  {
    hide Numbered, InOrder, QueueAsked, WorkersAsked, CallAsked, Asked;
  }

  lemma {:induction false} WorkerPriority(s: State, subs: seq<Submission>, i: nat, a: WorkerStep)
    requires PriorityLaw(s, subs) && i < |s.ws| && WorkerEnabled(s.ws[i], a)
    ensures PriorityLaw(WorkerNext(s, i, a), subs)
  {
    hide Numbered, InOrder, QueueAsked, ResultsAsked, CallAsked, Asked, Take, PushResult;
    if a == Advance && s.ws[i].Ready? {
      TakePriority(s, subs, i);
    } else if a == Advance && s.ws[i].Woken? {
      TakePriority(s.(idle := s.idle - 1), subs, i);
    } else if a == Advance && s.ws[i].Got? && s.ws[i].e.item.Req? {
      ResultPriority(s.(ws := s.ws[i := Ready]), subs, s.ws[i].e.item.id, s.ws[i].e.pri);
    }
  }

  lemma {:induction false} WakePriority(subs: seq<Submission>, ws: seq<Worker>, woken: set<nat>)
    requires WorkersAsked(subs, ws)
    ensures WorkersAsked(subs, Wake(ws, woken))
  {
  }

  lemma {:induction false} SubmitPriority(s: State, subs: seq<Submission>, a: UserStep)
    requires PriorityLaw(s, subs) && UserEnabled(s, a) && a.Submit?
    ensures PriorityLaw(UserNext(s, a), subs + [Submission(a.id, a.pri)])
  {
    var sub := Submission(a.id, a.pri);
    LawMore(s, subs, sub);
    AskedNow(subs, sub);
    ClampEffective(a.pri);
    WakePriority(subs + [sub], s.ws, a.woken);
    hide Numbered, WorkersAsked, ResultsAsked, Asked, Earlier, ClampPri, Effective, Wake, SignalOk, InOrder;
    if a.id !in s.groups {
      PushInOrder(subs + [sub], s.reqq, Entry(Req(a.id), ClampPri(a.pri)));
    }
  }

  lemma {:induction false} UserPriority(s: State, subs: seq<Submission>, a: UserStep)
    requires PriorityLaw(s, subs) && UserEnabled(s, a)
    ensures PriorityLaw(UserNext(s, a), subs + SubmittedBy(ByUser(a)))
  {
    if a.Submit? {
      SubmitPriority(s, subs, a);
    } else {
      assert subs + [] == subs;
      hide Numbered, InOrder, QueueAsked, WorkersAsked, ResultsAsked, Asked, SignalOk, MayJoin, Ranked;
    }
  }

  lemma {:induction false} CallPriority(s: State, subs: seq<Submission>, a: CallStep)
    requires PriorityLaw(s, subs) && CallEnabled(s, a)
    ensures PriorityLaw(CallNext(s, a), subs)
  {
    hide Numbered, Asked, Earlier, SignalOk, Wake, PushResult, InOrder, QueueAsked, ResultsAsked;
    match a
    case PushGroupResult => ResultPriority(s.(call := NoCall), subs, s.call.g, s.call.pri);
    case PushToken(woken) =>
      WakePriority(subs, s.ws, woken);
      PushInOrder(subs, s.reqq, Entry(Token, TOKEN_PRI));
    case _ =>
  }

  lemma {:induction false} ShiftPriority(s: State, subs: seq<Submission>)
    requires PriorityLaw(s, subs)
    ensures PriorityLaw(ShiftNext(s), subs)
  {
    hide Numbered, InOrder, QueueAsked, WorkersAsked, CallAsked, Asked, BestIndex;
  }

  lemma {:induction false} PollPriority(s: State, subs: seq<Submission>, a: PollStep)
    requires PriorityLaw(s, subs) && PollEnabled(s, a)
    ensures PriorityLaw(PollNext(s, a), subs)
  {
    hide Numbered, InOrder, QueueAsked, WorkersAsked, ResultsAsked, ShiftNext, DecideNext, UnlinkNext, CheckNext,
      UnwindNext;
    if a.ShiftResult? {
      ShiftPriority(s, subs);
    } else {
      PollFrame(s, a);
      hide PollNext;
    }
  }

  lemma {:induction false} PriorityStep(s: State, subs: seq<Submission>, a: Step)
    requires PriorityLaw(s, subs) && Enabled(s, a)
    ensures PriorityLaw(StepTo(s, a), subs + SubmittedBy(a))
  {
    assert !a.ByUser? ==> subs + SubmittedBy(a) == subs;
    hide PriorityLaw, WorkerNext, UserNext, CallNext, PollNext, WorkerEnabled, UserEnabled, CallEnabled, PollEnabled;
    match a
    case ByWorker(i, b) => WorkerPriority(s, subs, i, b);
    case ByUser(b) => UserPriority(s, subs, b);
    case ByCall(b) => CallPriority(s, subs, b);
    case ByPoll(b) => PollPriority(s, subs, b);
  }

  lemma {:induction false} PriorityRun(s: State, subs: seq<Submission>, steps: seq<Step>)
    requires PriorityLaw(s, subs) && Legal(s, steps)
    ensures PriorityLaw(Execute(s, steps), subs + Submissions(steps))
    decreases |steps|
  {
    hide PriorityLaw, StepTo, Enabled, SubmittedBy;
    if steps == [] {
      assert subs + [] == subs;
    } else {
      PriorityStep(s, subs, steps[0]);
      PriorityRun(StepTo(s, steps[0]), subs + SubmittedBy(steps[0]), steps[1..]);
      assert subs + Submissions(steps) == subs + SubmittedBy(steps[0]) + Submissions(steps[1..]);
    }
  }

  /** In every run a request has the priority it was submitted with, in both queues and with a worker. */
  lemma PrioritiesKept(steps: seq<Step>)
    requires Legal(INIT, steps)
    ensures PriorityLaw(Execute(INIT, steps), Submissions(steps))
  {
    hide Legal, Execute;
    PriorityRun(INIT, [], steps);
    assert [] + Submissions(steps) == Submissions(steps);
  }

  // ---------------------------------------------------------------- who is served first

  /** By effective priority, then by the order of submission, `x` comes before `y`. */
  ghost predicate ComesBefore(subs: seq<Submission>, x: Id, y: Id) {
    exists j, k :: 0 <= j < |subs| && 0 <= k < |subs| && subs[j].id == x && subs[k].id == y &&
      (Effective(subs[j].pri) > Effective(subs[k].pri) || (Effective(subs[j].pri) == Effective(subs[k].pri) && j < k))
  }

  lemma {:induction false} BestComesBefore(subs: seq<Submission>, submitted: set<Id>, q: seq<Entry<Item>>, j: nat)
    requires Numbered(subs, submitted) && QueueAsked(subs, q) && InOrder(subs, q)
    requires j < |q| && j != BestIndex(q) && q[j].item.Req? && q[BestIndex(q)].item.Req?
    ensures ComesBefore(subs, q[BestIndex(q)].item.id, q[j].item.id)
  {
    var k := BestIndex(q);
    hide BestIndex;
    var x, y := q[k].item.id, q[j].item.id;
    assert EntryAsked(subs, q[k]) && EntryAsked(subs, q[j]);
    var a :| 0 <= a < |subs| && subs[a].id == x && q[k].pri == Effective(subs[a].pri) + 4;
    var b :| 0 <= b < |subs| && subs[b].id == y && q[j].pri == Effective(subs[b].pri) + 4;
    if q[j].pri == q[k].pri {
      assert k < j;
      assert Earlier(subs, x, y);
    }
  }

  /** `e` comes before all requests of `rest`, and before a quit token only with the highest priority. */
  ghost predicate ServedFirst(subs: seq<Submission>, e: Entry<Item>, rest: seq<Entry<Item>>) {
    e.item.Req? ==>
      && (forall j :: 0 <= j < |rest| && rest[j].item.Req? ==> ComesBefore(subs, e.item.id, rest[j].item.id))
      && (forall j :: 0 <= j < |rest| && rest[j].item.Token? ==> Asked(subs, e.item.id, 8))
  }

  lemma {:induction false} BestServedFirst(subs: seq<Submission>, submitted: set<Id>, q: seq<Entry<Item>>)
    requires Numbered(subs, submitted) && QueueAsked(subs, q) && InOrder(subs, q) && q != []
    ensures EntryAsked(subs, q[BestIndex(q)])
    ensures ServedFirst(subs, q[BestIndex(q)], Remove(q, BestIndex(q)))
  {
    var k := BestIndex(q);
    var rest := Remove(q, k);
    hide BestIndex, Asked, ComesBefore, Numbered, InOrder;
    assert EntryAsked(subs, q[k]);
    forall j | 0 <= j < |rest| && q[k].item.Req?
      ensures rest[j].item.Req? ==> ComesBefore(subs, q[k].item.id, rest[j].item.id)
      ensures rest[j].item.Token? ==> Asked(subs, q[k].item.id, 8)
    {
      var m := if j < k then j else j + 1;
      assert rest[j] == q[m] && EntryAsked(subs, q[m]);
      if q[m].item.Req? {
        BestComesBefore(subs, submitted, q, m);
      } else {
        AtMostEight(subs, q[k].item.id, q[k].pri);
      }
    }
  }

  /**
   * In every run: a worker that finds entries in the queue takes one, which if it is a request comes before all
   * other queued requests, and before a quit token only with the highest priority. The others stay in order.
   */
  lemma WorkerTakesBest(steps: seq<Step>, i: nat)
    requires Legal(INIT, steps) && i < |Execute(INIT, steps).ws| && Execute(INIT, steps).reqq != []
    requires Execute(INIT, steps).ws[i].Ready? || Execute(INIT, steps).ws[i].Woken?
    ensures var s, subs := Execute(INIT, steps), Submissions(steps); var t := StepTo(s, ByWorker(i, Advance));
            && |t.ws| == |s.ws| && t.ws[i].Got?
            && (exists k :: 0 <= k < |s.reqq| && s.reqq[k] == t.ws[i].e && t.reqq == s.reqq[..k] + s.reqq[k + 1..])
            && EntryAsked(subs, t.ws[i].e) && ServedFirst(subs, t.ws[i].e, t.reqq)
  {
    var s, subs := Execute(INIT, steps), Submissions(steps);
    PrioritiesKept(steps);
    var k := BestIndex(s.reqq);
    BestServedFirst(subs, s.submitted, s.reqq);
    hide Legal, Execute, Submissions, BestIndex, EntryAsked, ServedFirst, PriorityLaw;
    assert s.reqq[k] in s.reqq;
  }

  lemma AtMostEight(subs: seq<Submission>, x: Id, p: nat)
    requires Asked(subs, x, p)
    ensures p <= 8
  {
  }

  /**
   * In every run: eio_poll takes the oldest of the results with the highest priority, each result has the
   * priority its request was submitted with, and the other results stay as they are.
   */
  lemma PollTakesBest(steps: seq<Step>)
    requires Legal(INIT, steps) && Enabled(Execute(INIT, steps), ByPoll(ShiftResult))
    requires Execute(INIT, steps).resq != []
    ensures var s, subs := Execute(INIT, steps), Submissions(steps); var t := StepTo(s, ByPoll(ShiftResult));
            exists k :: 0 <= k < |s.resq| && t.main == Dec(s.resq[k].item) && t.resq == s.resq[..k] + s.resq[k + 1..]
                     && (forall j :: 0 <= j < |s.resq| ==> s.resq[j].pri <= s.resq[k].pri)
                     && (forall j :: 0 <= j < k ==> s.resq[j].pri < s.resq[k].pri)
    ensures ResultsAsked(Submissions(steps), Execute(INIT, steps).resq)
  {
    var s := Execute(INIT, steps);
    PrioritiesKept(steps);
    var k := ShiftTakes(s);
    hide Legal, Execute, Submissions, ResultsAsked, StepTo, Enabled;
  }

  lemma {:induction false} ShiftTakes(s: State) returns (k: nat)
    requires Enabled(s, ByPoll(ShiftResult)) && s.resq != []
    ensures var t := StepTo(s, ByPoll(ShiftResult));
            k < |s.resq| && t.main == Dec(s.resq[k].item) && t.resq == s.resq[..k] + s.resq[k + 1..]
    ensures forall j :: 0 <= j < |s.resq| ==> s.resq[j].pri <= s.resq[k].pri
    ensures forall j :: 0 <= j < k ==> s.resq[j].pri < s.resq[k].pri
  {
    k := BestIndex(s.resq);
    hide BestIndex;
  }
}
