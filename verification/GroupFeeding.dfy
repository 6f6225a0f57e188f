/**
 * Feedings as the history shows them: whether a call of the feeder was followed by an addition to the group,
 * which decides whether the feeder is kept.
 */
module GroupFeeding {
  import opened Requests
  import opened GroupHistory

  /** The feeder of `g` ran among the events that `log` adds to `log0`. */
  ghost predicate FedSince(log0: seq<Event>, log: seq<Event>, g: Request) {
    exists i :: |log0| <= i < |log| && log[i] == Fed(g)
  }

  /** Something was added to `g` among the events that `log` adds to `log0`. */
  ghost predicate AddedTo(log0: seq<Event>, log: seq<Event>, g: Request) {
    exists i :: |log0| <= i < |log| && log[i].Added? && log[i].g == g
  }

  ghost predicate NoFeeds(log0: seq<Event>, log: seq<Event>) {
    forall i :: |log0| <= i < |log| ==> !log[i].Fed?
  }

  /** No feeder but that of `g` ran. */
  ghost predicate OnlyFeeds(log0: seq<Event>, log: seq<Event>, g: Request) {
    forall i :: |log0| <= i < |log| && log[i].Fed? ==> log[i].g == g
  }

  /** After event `i`, and before `g` is fed again, something is added to `g`. */
  ghost predicate Productive(log: seq<Event>, i: nat, g: Request) {
    exists k :: i < k < |log| && log[k].Added? && log[k].g == g && forall j :: i < j < k ==> log[j] != Fed(g)
  }

  /** Every feeding of `g` among the events that `log` adds to `log0` made progress. */
  ghost predicate AllProductive(log0: seq<Event>, log: seq<Event>, g: Request) {
    forall i :: |log0| <= i < |log| && log[i] == Fed(g) ==> Productive(log, i, g)
  }

  /** Every one but the last did. */
  ghost predicate EarlierProductive(log0: seq<Event>, log: seq<Event>, g: Request) {
    forall i, j :: |log0| <= i < j < |log| && log[i] == log[j] == Fed(g) ==> Productive(log, i, g)
  }

  /** The feedings of a loop that goes on. */
  ghost predicate GoodFeedings(log0: seq<Event>, log: seq<Event>, g: Request) {
    OnlyFeeds(log0, log, g) && EarlierProductive(log0, log, g) && AllProductive(log0, log, g)
  }

  ghost predicate Prefix(log0: seq<Event>, log: seq<Event>) {
    |log0| <= |log| && log[..|log0|] == log0
  }

  lemma PrefixAt(log0: seq<Event>, log: seq<Event>)
    requires Prefix(log0, log)
    ensures forall i :: 0 <= i < |log0| ==> log[i] == log0[i]
  {
    assert forall i :: 0 <= i < |log0| ==> log[..|log0|][i] == log[i];
  }

  lemma PrefixSame(log: seq<Event>)
    ensures Prefix(log, log) && NoFeeds(log, log)
  {
  }

  lemma FedLonger(log0: seq<Event>, log1: seq<Event>, log: seq<Event>, g: Request)
    requires FedSince(log0, log1, g) && Prefix(log1, log)
    ensures FedSince(log0, log, g)
  {
    PrefixAt(log1, log);
    var i :| |log0| <= i < |log1| && log1[i] == Fed(g);
    assert log[i] == Fed(g);
  }

  lemma NothingAdded(log: seq<Event>)
    ensures NoFeeds(log, log) && forall g :: !AddedTo(log, log, g)
  {
  }

  lemma OneAdded(log: seq<Event>, e: Event)
    ensures forall g :: AddedTo(log, log + [e], g) <==> e.Added? && e.g == g
    ensures !e.Fed? ==> NoFeeds(log, log + [e])
  {
    assert (log + [e])[|log|] == e;
  }

  lemma AddedTrans(log0: seq<Event>, log1: seq<Event>, log: seq<Event>)
    requires |log0| <= |log1| && Prefix(log1, log)
    ensures forall g :: AddedTo(log0, log, g) <==> AddedTo(log0, log1, g) || AddedTo(log1, log, g)
    ensures NoFeeds(log0, log1) && NoFeeds(log1, log) ==> NoFeeds(log0, log)
  {
    PrefixAt(log1, log);
    forall g
      ensures AddedTo(log0, log, g) <==> AddedTo(log0, log1, g) || AddedTo(log1, log, g)
    {
      if AddedTo(log0, log1, g) {
        var i :| |log0| <= i < |log1| && log1[i].Added? && log1[i].g == g;
        assert log[i].Added? && log[i].g == g;
      }
      if AddedTo(log1, log, g) {
        var i :| |log1| <= i < |log| && log[i].Added? && log[i].g == g;
        assert |log0| <= i;
      }
      if AddedTo(log0, log, g) {
        var i :| |log0| <= i < |log| && log[i].Added? && log[i].g == g;
        assert i < |log1| ==> log1[i].Added? && log1[i].g == g;
      }
    }
  }

  /** An event that is no feeding, and then no feeding. */
  lemma QuietAfter(log0: seq<Event>, e: Event, log: seq<Event>)
    requires Prefix(log0 + [e], log) && !e.Fed?
    ensures Prefix(log0, log)
    ensures NoFeeds(log0 + [e], log) ==> NoFeeds(log0, log)
  {
    PrefixAt(log0 + [e], log);
    assert log[|log0|] == e;
    assert log[..|log0|] == log[..|log0 + [e]|][..|log0|];
  }

  lemma ProductiveLonger(log1: seq<Event>, log: seq<Event>, i: nat, g: Request)
    requires Prefix(log1, log) && Productive(log1, i, g)
    ensures Productive(log, i, g)
  {
    PrefixAt(log1, log);
    var k :| i < k < |log1| && log1[k].Added? && log1[k].g == g && forall j :: i < j < k ==> log1[j] != Fed(g);
    assert log[k].Added? && log[k].g == g && forall j :: i < j < k ==> log[j] == log1[j];
  }

  /** One more turn of the loop of grp_try_feed, in which only that feeder ran. */
  lemma OneMoreFeeding(log0: seq<Event>, log1: seq<Event>, log: seq<Event>, g: Request)
    requires |log0| <= |log1| && Prefix(log1 + [Fed(g)], log) && NoFeeds(log1 + [Fed(g)], log)
    requires GoodFeedings(log0, log1, g)
    ensures OnlyFeeds(log0, log, g) && EarlierProductive(log0, log, g)
    ensures GoodFeedings(log0, log, g) <==> AddedTo(log1 + [Fed(g)], log, g)
    ensures AllProductive(log0, log, g) <==> AddedTo(log1 + [Fed(g)], log, g)
    ensures forall x :: x != g ==> AllProductive(log0, log, x)
  {
    PrefixAt(log1 + [Fed(g)], log);
    assert log[|log1|] == Fed(g) && forall i :: 0 <= i < |log1| ==> log[i] == log1[i];
    assert log[..|log1|] == log1;
    forall i | |log0| <= i < |log1| && log[i] == Fed(g)
      ensures Productive(log, i, g)
    {
      assert log1[i] == Fed(g);
      ProductiveLonger(log1, log, i, g);
    }
    if AddedTo(log1 + [Fed(g)], log, g) {
      var k :| |log1| + 1 <= k < |log| && log[k].Added? && log[k].g == g;
      assert Productive(log, |log1|, g);
    }
  }

  /** Feedings of other groups do not matter. */
  lemma OthersProductive(log0: seq<Event>, log: seq<Event>, g: Request)
    requires OnlyFeeds(log0, log, g)
    ensures forall x :: x != g ==> AllProductive(log0, log, x)
  {
  }

  lemma NoneProductive(log0: seq<Event>, log: seq<Event>)
    requires NoFeeds(log0, log)
    ensures forall x :: AllProductive(log0, log, x)
  {
  }

  lemma NothingFed(log: seq<Event>, g: Request)
    ensures GoodFeedings(log, log, g)
  {
  }

  lemma GoodFeedingsMean(log0: seq<Event>, log: seq<Event>, g: Request)
    requires GoodFeedings(log0, log, g)
    ensures OnlyFeeds(log0, log, g) && EarlierProductive(log0, log, g) && forall x :: AllProductive(log0, log, x)
  {
    OthersProductive(log0, log, g);
  }

  /** Events before the first feeding of `x` do not matter. */
  lemma ProductiveFrom(log0: seq<Event>, log1: seq<Event>, log: seq<Event>, x: Request)
    requires |log0| <= |log1| && Prefix(log1, log) && !FedSince(log0, log1, x)
    ensures AllProductive(log0, log, x) <==> AllProductive(log1, log, x)
  {
    PrefixAt(log1, log);
  }

  /** Nor does one more event that is no addition. */
  lemma ProductiveThen(log0: seq<Event>, log: seq<Event>, e: Event)
    requires |log0| <= |log| && !e.Added? && !e.Fed?
    ensures forall x :: AllProductive(log0, log + [e], x) <==> AllProductive(log0, log, x)
  {
    forall x
      ensures AllProductive(log0, log + [e], x) <==> AllProductive(log0, log, x)
    {
      forall i | |log0| <= i < |log|
        ensures Productive(log + [e], i, x) <==> Productive(log, i, x)
      {
        EventAfter(log, e, i, x);
      }
    }
  }

  /** Nothing before the first feeding matters. */
  lemma ProductiveAfter(log0: seq<Event>, log1: seq<Event>, log: seq<Event>)
    requires |log0| <= |log1| && Prefix(log1, log) && NoFeeds(log0, log1)
    ensures forall x :: AllProductive(log0, log, x) <==> AllProductive(log1, log, x)
  {
    forall x
      ensures AllProductive(log0, log, x) <==> AllProductive(log1, log, x)
    {
      ProductiveFrom(log0, log1, log, x);
    }
  }

  /** While only `g` is fed the others wait. */
  lemma ProductiveLater(log0: seq<Event>, log1: seq<Event>, log: seq<Event>, g: Request)
    requires |log0| <= |log1| && Prefix(log1, log) && OnlyFeeds(log0, log1, g)
    ensures forall x :: x != g ==> (AllProductive(log0, log, x) <==> AllProductive(log1, log, x))
    ensures forall x :: x != g ==> AllProductive(log0, log1, x)
  {
    forall x | x != g
      ensures AllProductive(log0, log, x) <==> AllProductive(log1, log, x)
    {
      ProductiveFrom(log0, log1, log, x);
    }
  }

  /** Before the first feeding, and after the last addition. */
  lemma FinishProductive(log0: seq<Event>, log1: seq<Event>, log: seq<Event>, e: Event)
    requires |log0| <= |log1| && Prefix(log1, log) && NoFeeds(log0, log1) && !e.Added? && !e.Fed?
    ensures forall x :: AllProductive(log0, log + [e], x) <==> AllProductive(log1, log, x)
  {
    ProductiveAfter(log0, log1, log);
    ProductiveThen(log0, log, e);
  }

  lemma EventAfter(log: seq<Event>, e: Event, i: nat, x: Request)
    requires !e.Added?
    ensures Productive(log + [e], i, x) <==> Productive(log, i, x)
  {
    if Productive(log, i, x) {
      ProductiveLonger(log, log + [e], i, x);
    }
    if Productive(log + [e], i, x) {
      var l := log + [e];
      var k :| i < k < |l| && l[k].Added? && l[k].g == x && forall j :: i < j < k ==> l[j] != Fed(x);
      assert log[k].Added? && log[k].g == x && forall j :: i < j < k ==> log[j] == l[j];
    }
  }
}
