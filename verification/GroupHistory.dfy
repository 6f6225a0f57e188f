/**
 * What may happen to requests and groups, and in which order: the history that finishing, group
 * membership, feeding and cancelling leave behind.
 */
module GroupHistory {
  import opened Requests

  datatype Event =
    | Polled(r: Request)             // eio_poll took the request off the result queue
    | Added(g: Request, m: Request)  // eio_grp_add
    | Finishing(r: Request)          // eio_finish entered
    | Called(r: Request, res: int)   // the finish callback ran and returned res
    | Unlinked(r: Request)           // taken off its group's list
    | Fed(g: Request)                // the feeder ran
    | Flagged(r: Request)            // the cancelled flag was set
    | Destroyed(r: Request)

  ghost predicate WasCalled(log: seq<Event>, r: Request) {
    exists e :: e in log && e.Called? && e.r == r
  }

  ghost predicate WasAdded(log: seq<Event>, m: Request) {
    exists e :: e in log && e.Added? && e.m == m
  }

  /** Every request that was added to `g` was unlinked again. */
  ghost predicate AllUnlinked(log: seq<Event>, g: Request) {
    forall e :: e in log && e.Added? && e.g == g ==> Unlinked(e.m) in log
  }

  /** The finish callback of `r`, if it has one, ran, or `r` was cancelled. */
  ghost predicate Answered(log: seq<Event>, r: Request) {
    r.hasFinish ==> WasCalled(log, r) || Flagged(r) in log
  }

  /** When event `e` is allowed after the events of `log`. */
  ghost predicate OkNext(log: seq<Event>, e: Event) {
    match e
    case Polled(r) => Polled(r) !in log
    case Added(g, m) => Finishing(g) !in log && Unlinked(m) !in log && Destroyed(m) !in log && !WasAdded(log, m)
    case Finishing(r) =>
      Finishing(r) !in log && Polled(r) in log && AllUnlinked(log, r)
    case Called(r, _) =>
      r.hasFinish && Finishing(r) in log && !WasCalled(log, r) && Flagged(r) !in log && Unlinked(r) !in log &&
        Destroyed(r) !in log
    case Unlinked(r) => Unlinked(r) !in log && Finishing(r) in log && WasAdded(log, r) && Answered(log, r)
    case Fed(g) => Flagged(g) !in log && Finishing(g) !in log
    case Flagged(r) => Destroyed(r) !in log
    case Destroyed(r) =>
      Destroyed(r) !in log && Finishing(r) in log && (WasAdded(log, r) ==> Unlinked(r) in log) && Answered(log, r)
  }

  ghost predicate GoodHistory(log: seq<Event>) {
    forall i :: 0 <= i < |log| ==> OkNext(log[..i], log[i])
  }

  lemma HistoryAppend(log: seq<Event>, e: Event)
    requires GoodHistory(log) && OkNext(log, e)
    ensures GoodHistory(log + [e])
  {
    forall i | 0 <= i < |log + [e]|
      ensures OkNext((log + [e])[..i], (log + [e])[i])
    {
      assert (log + [e])[..i] == log[..i];
      assert i == |log| ==> log[..i] == log;
    }
  }

  // ---------------------------------------------------------------- what a good history promises

  /** No finish callback runs twice, and no request is destroyed twice. */
  lemma AtMostOnce(log: seq<Event>, i: nat, j: nat)
    requires GoodHistory(log) && i < j < |log|
    ensures log[i].Called? && log[j].Called? ==> log[i].r != log[j].r
    ensures log[i].Destroyed? && log[j].Destroyed? ==> log[i].r != log[j].r
    ensures log[i].Unlinked? && log[j].Unlinked? ==> log[i].r != log[j].r
  {
    assert log[i] in log[..j];
    assert OkNext(log[..j], log[j]);
  }

  /**
   * When a group's finish callback runs, the group itself was polled, and every request that was
   * ever added to it, also by feeders and callbacks, was already finished and unlinked.
   */
  lemma CalledLast(log: seq<Event>, i: nat)
    requires GoodHistory(log) && i < |log| && log[i].Called?
    ensures Polled(log[i].r) in log[..i]
    ensures forall m :: Added(log[i].r, m) in log ==> Finishing(m) in log[..i] && Unlinked(m) in log[..i]
  {
    var g := log[i].r;
    assert OkNext(log[..i], log[i]);
    var k :| 0 <= k < i && log[k] == Finishing(g);
    assert OkNext(log[..k], log[k]);
    PrefixIn(log, k, i);
    forall m | Added(g, m) in log
      ensures Finishing(m) in log[..i] && Unlinked(m) in log[..i]
    {
      var a :| 0 <= a < |log| && log[a] == Added(g, m);
      assert OkNext(log[..a], log[a]);
      NotBefore(log, k, a);
      assert a != k;
      assert log[..k][a] == Added(g, m);
      assert Unlinked(m) in log[..k];
      var u :| 0 <= u < k && log[u] == Unlinked(m);
      assert OkNext(log[..u], log[u]);
      PrefixIn(log, u, i);
    }
  }

  lemma NotBefore(log: seq<Event>, k: nat, a: nat)
    requires k < |log| && a <= |log| && log[k] !in log[..a]
    ensures a <= k
  {
  }

  lemma PrefixIn(log: seq<Event>, k: nat, i: nat)
    requires k <= i <= |log|
    ensures forall e :: e in log[..k] ==> e in log[..i]
  {
    assert log[..k] == log[..i][..k];
  }

  /** Once a request is flagged its finish callback does not start any more, and it is not fed. */
  lemma CancelledStaysQuiet(log: seq<Event>, i: nat, j: nat)
    requires GoodHistory(log) && i < j < |log| && log[i].Flagged?
    ensures log[j].Called? ==> log[j].r != log[i].r
    ensures log[j].Fed? ==> log[j].g != log[i].r
  {
    assert log[i] in log[..j];
    assert OkNext(log[..j], log[j]);
  }

  /** A request with a finish callback is destroyed only after the callback ran, unless it was cancelled. */
  lemma CallbackRuns(log: seq<Event>, i: nat)
    requires GoodHistory(log) && i < |log| && log[i].Destroyed? && log[i].r.hasFinish
    requires Flagged(log[i].r) !in log[..i]
    ensures WasCalled(log[..i], log[i].r)
  {
    assert OkNext(log[..i], log[i]);
  }

  /** Nothing happens to a request after it was destroyed: no callback, no unlinking, no new members. */
  lemma DestroyedIsLast(log: seq<Event>, i: nat, j: nat)
    requires GoodHistory(log) && i < j < |log| && log[i].Destroyed?
    ensures log[j].Called? || log[j].Unlinked? || log[j].Finishing? ==> log[j].r != log[i].r
    ensures log[j].Added? || log[j].Fed? ==> log[j].g != log[i].r
  {
    var r := log[i].r;
    assert log[i] in log[..j];
    assert OkNext(log[..j], log[j]) && OkNext(log[..i], log[i]);
    PrefixIn(log, i, j);
    if WasAdded(log[..j], r) {
      AddedBeforeDestroyed(log, i, j);
    }
  }

  /** A destroyed member was unlinked before. */
  lemma AddedBeforeDestroyed(log: seq<Event>, i: nat, j: nat)
    requires GoodHistory(log) && i < j <= |log| && log[i].Destroyed? && WasAdded(log[..j], log[i].r)
    ensures Unlinked(log[i].r) in log[..i]
  {
    assert OkNext(log[..i], log[i]);
    var e :| e in log[..j] && e.Added? && e.m == log[i].r;
    var a :| 0 <= a < j && log[a] == e;
    assert OkNext(log[..a], log[a]);
    NotBefore(log, i, a);
    assert a != i;
    assert log[..i][a] == e;
  }

  /** No finish callback runs twice, and nothing is unlinked or destroyed twice. */
  ghost predicate NothingTwice(log: seq<Event>) {
    forall i, j :: 0 <= i < j < |log| ==>
      && (log[i].Called? && log[j].Called? ==> log[i].r != log[j].r)
      && (log[i].Unlinked? && log[j].Unlinked? ==> log[i].r != log[j].r)
      && (log[i].Destroyed? && log[j].Destroyed? ==> log[i].r != log[j].r)
  }

  /** A finish callback runs after the request was polled and all its members were finished and unlinked. */
  ghost predicate CallbacksLast(log: seq<Event>) {
    forall i :: 0 <= i < |log| && log[i].Called? ==>
      Polled(log[i].r) in log[..i] &&
      forall e :: e in log && e.Added? && e.g == log[i].r ==> Finishing(e.m) in log[..i] && Unlinked(e.m) in log[..i]
  }

  /** A callback that exists and was not cancelled has run when its request is destroyed. */
  ghost predicate CallbacksRun(log: seq<Event>) {
    forall i :: 0 <= i < |log| && log[i].Destroyed? && log[i].r.hasFinish && Flagged(log[i].r) !in log[..i] ==>
      WasCalled(log[..i], log[i].r)
  }

  /** After its cancellation a request's callback does not start and it is not fed. */
  ghost predicate CancelledQuiet(log: seq<Event>) {
    forall i, j :: 0 <= i < j < |log| && log[i].Flagged? ==>
      (log[j].Called? ==> log[j].r != log[i].r) && (log[j].Fed? ==> log[j].g != log[i].r)
  }

  /** After its destruction nothing happens to a request. */
  ghost predicate DestroyedQuiet(log: seq<Event>) {
    forall i, j :: 0 <= i < j < |log| && log[i].Destroyed? ==>
      && (log[j].Called? || log[j].Unlinked? || log[j].Finishing? ==> log[j].r != log[i].r)
      && (log[j].Added? || log[j].Fed? ==> log[j].g != log[i].r)
  }

  ghost predicate Promises(log: seq<Event>) {
    NothingTwice(log) && CallbacksLast(log) && CallbacksRun(log) && CancelledQuiet(log) && DestroyedQuiet(log)
  }

  lemma GoodPromises(log: seq<Event>)
    requires GoodHistory(log)
    ensures Promises(log)
  {
    hide GoodHistory, WasCalled;
    forall i, j | 0 <= i < j < |log|
      ensures (log[i].Called? && log[j].Called? ==> log[i].r != log[j].r)
      ensures (log[i].Unlinked? && log[j].Unlinked? ==> log[i].r != log[j].r)
      ensures (log[i].Destroyed? && log[j].Destroyed? ==> log[i].r != log[j].r)
    {
      AtMostOnce(log, i, j);
    }
    forall i | 0 <= i < |log| && log[i].Called?
      ensures Polled(log[i].r) in log[..i]
      ensures forall e :: e in log && e.Added? && e.g == log[i].r ==>
        Finishing(e.m) in log[..i] && Unlinked(e.m) in log[..i]
    {
      CalledLast(log, i);
      forall e | e in log && e.Added? && e.g == log[i].r
        ensures Finishing(e.m) in log[..i] && Unlinked(e.m) in log[..i]
      {
        assert e == Added(log[i].r, e.m);
      }
    }
    forall i | 0 <= i < |log| && log[i].Destroyed? && log[i].r.hasFinish && Flagged(log[i].r) !in log[..i]
      ensures WasCalled(log[..i], log[i].r)
    {
      CallbackRuns(log, i);
    }
    forall i, j | 0 <= i < j < |log| && log[i].Flagged?
      ensures (log[j].Called? ==> log[j].r != log[i].r) && (log[j].Fed? ==> log[j].g != log[i].r)
    {
      CancelledStaysQuiet(log, i, j);
    }
    forall i, j | 0 <= i < j < |log| && log[i].Destroyed?
      ensures log[j].Called? || log[j].Unlinked? || log[j].Finishing? ==> log[j].r != log[i].r
      ensures log[j].Added? || log[j].Fed? ==> log[j].g != log[i].r
    {
      DestroyedIsLast(log, i, j);
    }
  }

  /** The value eio_finish hands back: the first callback result that is not zero. */
  ghost function FirstNonzero(events: seq<Event>): int {
    if events == [] then 0
    else if events[0].Called? && events[0].res != 0 then events[0].res
    else FirstNonzero(events[1..])
  }

  /** It is the result of a callback before which all results were zero, or all of them were. */
  lemma {:induction false} FirstNonzeroMeans(events: seq<Event>)
    ensures FirstNonzero(events) == 0 ==> forall i :: 0 <= i < |events| && events[i].Called? ==> events[i].res == 0
    ensures FirstNonzero(events) != 0 ==>
      exists i :: 0 <= i < |events| && events[i].Called? && events[i].res == FirstNonzero(events)
        && forall j :: 0 <= j < i && events[j].Called? ==> events[j].res == 0
  {
    if events != [] && !(events[0].Called? && events[0].res != 0) {
      var rest := events[1..];
      FirstNonzeroMeans(rest);
      assert forall k :: 0 <= k < |rest| ==> rest[k] == events[k + 1];
      if FirstNonzero(rest) != 0 {
        var i :| 0 <= i < |rest| && rest[i].Called? && rest[i].res == FirstNonzero(rest)
          && forall j :: 0 <= j < i && rest[j].Called? ==> rest[j].res == 0;
        assert events[i + 1] == rest[i];
        assert forall j :: 0 < j < i + 1 ==> events[j] == rest[j - 1];
      } else {
        assert forall k :: 0 < k < |events| ==> events[k] == rest[k - 1];
      }
    }
  }

  lemma {:induction false} FirstNonzeroConcat(a: seq<Event>, b: seq<Event>)
    ensures FirstNonzero(a + b) == if FirstNonzero(a) != 0 then FirstNonzero(a) else FirstNonzero(b)
    decreases |a|
  {
    if a == [] {
      assert a + b == b;
    } else {
      FirstNonzeroConcat(a[1..], b);
      assert (a + b)[1..] == a[1..] + b;
    }
  }
}
