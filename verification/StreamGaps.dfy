/**
 Where events are lost. The raw subscription is read in two steps and misses exactly what
 is in neither; the stream built on it notices when it next hears an event, and waits
 until then. A gap event too far ahead of the reader makes even the stream skip events,
 for good.
 */
module StreamGaps {
  import opened OrderedMaps
  import opened TaskModel
  import opened ReliableStream
  import opened StreamWorld
  import opened StreamOrder
  import Store = MemoryStore

  lemma RunMore(task: TaskId, after: EventSeq, schedule: seq<Action>, a: Action)
    ensures Run(task, after, schedule + [a]) == Step(task, after, Run(task, after, schedule), a)
  {
    assert (schedule + [a])[..|schedule + [a]| - 1] == schedule;
  }

  // ---------------------------------------------------------------- the raw subscription

  /** Actions of others: the subscriber does nothing in between. */
  predicate Outside(actions: seq<Action>) {
    forall i | 0 <= i < |actions| :: !actions[i].Poll? && !actions[i].ReadFails?
  }

  function Last<T>(s: seq<T>, n: nat): seq<T> {
    if n < |s| then s[|s| - n..] else s
  }

  predicate Publishes(w: World, a: Action, k: nat) {
    a == Publish(k) && 1 <= k <= |w.log| && !w.closed
  }

  /** What one action offers an open receiver. */
  function Sent(w: World, a: Action): seq<CoreEvent> {
    if a.Publish? && Publishes(w, a, a.number) then [w.log[a.number - 1]] else []
  }

  /** What the receiver is offered along the first `n` of the actions. */
  ghost function Offered(task: TaskId, after: EventSeq, schedule: seq<Action>, actions: seq<Action>, n: nat)
    : seq<CoreEvent>
    requires n <= |actions|
  {
    if n == 0 then []
    else
      Offered(task, after, schedule, actions, n - 1) +
      Sent(Run(task, after, schedule + actions[..n - 1]), actions[n - 1])
  }

  ghost predicate PublishesAt(task: TaskId, after: EventSeq, schedule: seq<Action>, actions: seq<Action>, i: nat,
                              k: nat)
    requires i < |actions|
  {
    Publishes(Run(task, after, schedule + actions[..i]), actions[i], k)
  }

  /** Number `k` is published by one of the first `n` actions while it is in the log and the channel is open. */
  ghost predicate PublishedOpen(task: TaskId, after: EventSeq, schedule: seq<Action>, actions: seq<Action>, n: nat,
                                k: nat)
    requires n <= |actions|
  {
    exists i: nat | i < n :: PublishesAt(task, after, schedule, actions, i, k)
  }

  ghost predicate Holds(events: seq<CoreEvent>, k: nat) {
    exists i | 0 <= i < |events| :: events[i].seqNo == k
  }

  lemma HoldsSnoc(events: seq<CoreEvent>, event: CoreEvent, k: nat)
    ensures Holds(events + [event], k) <==> Holds(events, k) || event.seqNo == k
  {
    if Holds(events, k) {
      var i :| 0 <= i < |events| && events[i].seqNo == k;
      assert (events + [event])[i].seqNo == k;
    }
    if event.seqNo == k {
      assert (events + [event])[|events|].seqNo == k;
    }
  }

  lemma SentNumber(w: World, a: Action, events: seq<CoreEvent>, k: nat)
    requires Store.Numbered(w.log, 0)
    ensures Holds(events + Sent(w, a), k) <==> Holds(events, k) || Publishes(w, a, k)
  {
    if Sent(w, a) == [] {
      assert events + Sent(w, a) == events;
    } else {
      HoldsSnoc(events, w.log[a.number - 1], k);
    }
  }

  lemma LogIsNumbered(task: TaskId, after: EventSeq, schedule: seq<Action>)
    ensures Store.Numbered(Run(task, after, schedule).log, 0)
  {
    EveryRunIsOrdered(task, after, schedule);
  }

  /** A number is offered exactly when it is published while it is in the log and the channel is open. */
  lemma {:induction false} OfferedIsPublished(task: TaskId, after: EventSeq, schedule: seq<Action>,
                                              actions: seq<Action>, n: nat, k: nat)
    requires n <= |actions|
    ensures Holds(Offered(task, after, schedule, actions, n), k) <==>
            PublishedOpen(task, after, schedule, actions, n, k)
  {
    if n > 0 {
      OfferedIsPublished(task, after, schedule, actions, n - 1, k);
      assert PublishedOpen(task, after, schedule, actions, n, k) <==>
             PublishedOpen(task, after, schedule, actions, n - 1, k) ||
             PublishesAt(task, after, schedule, actions, n - 1, k);
      LogIsNumbered(task, after, schedule + actions[..n - 1]);
      SentNumber(Run(task, after, schedule + actions[..n - 1]), actions[n - 1],
                 Offered(task, after, schedule, actions, n - 1), k);
    }
  }

  ghost predicate Receives(w: World, offered: seq<CoreEvent>) {
    w.pc.Idle? && w.queue == Last(offered, CHANNEL) && (w.lagged <==> |offered| > CHANNEL)
  }

  lemma OneMoreOffered(task: TaskId, after: EventSeq, w: World, a: Action, offered: seq<CoreEvent>)
    requires w.base <= |w.log| && Receives(w, offered) && !a.Poll? && !a.ReadFails?
    ensures Receives(Step(task, after, w, a), offered + Sent(w, a))
  {
    if Sent(w, a) == [] {
      assert offered + Sent(w, a) == offered;
    } else {
      var event := w.log[a.number - 1];
      if |offered| < CHANNEL {
        assert Last(offered + [event], CHANNEL) == offered + [event];
      } else {
        assert (Last(offered, CHANNEL) + [event])[1..] == Last(offered + [event], CHANNEL);
      }
    }
  }

  lemma RunNext(task: TaskId, after: EventSeq, schedule: seq<Action>, actions: seq<Action>, n: nat)
    requires 0 < n <= |actions|
    ensures Run(task, after, schedule + actions[..n]) ==
            Step(task, after, Run(task, after, schedule + actions[..n - 1]), actions[n - 1])
  {
    assert (schedule + actions[..n])[..|schedule| + n - 1] == schedule + actions[..n - 1];
  }

  /** The receiver's queue is the last 256 of what it was offered, and it lags when there was more. */
  lemma {:induction false} QueueIsTheLastOffered(task: TaskId, after: EventSeq, schedule: seq<Action>,
                                                 actions: seq<Action>, n: nat)
    requires n <= |actions| && Outside(actions) && Receives(Run(task, after, schedule), [])
    ensures Receives(Run(task, after, schedule + actions[..n]), Offered(task, after, schedule, actions, n))
  {
    if n == 0 {
      assert schedule + actions[..0] == schedule;
    } else {
      QueueIsTheLastOffered(task, after, schedule, actions, n - 1);
      OneMoreOffered(task, after, Run(task, after, schedule + actions[..n - 1]), actions[n - 1],
                     Offered(task, after, schedule, actions, n - 1));
      RunNext(task, after, schedule, actions, n);
    }
  }

  lemma OutsideStep(task: TaskId, after: EventSeq, w: World, a: Action)
    requires w.base <= |w.log| && !a.Poll? && !a.ReadFails?
    ensures Step(task, after, w, a).pc == w.pc && Step(task, after, w, a).stream == w.stream
  {
  }

  lemma {:induction false} OutsideKeeps(task: TaskId, after: EventSeq, schedule: seq<Action>, actions: seq<Action>,
                                        n: nat)
    requires n <= |actions| && Outside(actions)
    ensures var w, w' := Run(task, after, schedule), Run(task, after, schedule + actions[..n]);
            w'.pc == w.pc && w'.stream == w.stream
  {
    if n == 0 {
      assert schedule + actions[..0] == schedule;
    } else {
      OutsideKeeps(task, after, schedule, actions, n - 1);
      RunNext(task, after, schedule, actions, n);
      OutsideStep(task, after, Run(task, after, schedule + actions[..n - 1]), actions[n - 1]);
    }
  }

  lemma NumbersOfSlice(log: seq<CoreEvent>, lo: nat, hi: nat, k: nat)
    requires Store.Numbered(log, 0) && lo <= hi <= |log|
    ensures Holds(log[lo..hi], k) <==> lo < k <= hi
  {
    if lo < k <= hi {
      assert log[lo..hi][k - 1 - lo].seqNo == k;
    }
  }

  /** The numbers one history read returns: at most 500 beyond the later of `after` and what retention left. */
  lemma PageNumbers(w: World, after: EventSeq, k: nat)
    requires Store.Numbered(w.log, 0) && w.base <= |w.log|
    ensures var from := if w.base < after then after else w.base;
            Holds(HistoryPage(w, after), k) <==> from < k <= Store.Min(from + PAGE, |w.log|)
  {
    ReadIsSlice(w.log, w.base, after);
    var from := if w.base < after then after else w.base;
    if from <= |w.log| {
      FirstPage(w.log, from);
      NumbersOfSlice(w.log, from, PageEnd(w.log, from), k);
    }
  }

  /**
   The raw subscription, exactly. It reads the history after `s1`, opens the receiver
   after `s2`, and others go on with `s3`. A number is in neither part if and only if it
   lay outside the 500 the read returned and is never published, the channel being open,
   after the receiver was opened. So both an event published between the two steps and a
   backlog of more than 500 are missed.
   */
  lemma RawSubscriptionMissesExactly(task: TaskId, after: EventSeq, s1: seq<Action>, s2: seq<Action>,
                                     s3: seq<Action>, k: nat)
    requires Outside(s1) && Outside(s2) && Outside(s3)
    ensures var read := Run(task, after, s1);
            var open := s1 + [Poll] + s2 + [Poll];
            var from := if read.base < after then after else read.base;
            var w := Run(task, after, open + s3);
            && Receives(w, Offered(task, after, open, s3, |s3|))
            && (!Holds(w.stream.pending, k) && !Holds(Offered(task, after, open, s3, |s3|), k) <==>
                && !(from < k <= Store.Min(from + PAGE, |read.log|))
                && !PublishedOpen(task, after, open, s3, |s3|, k))
  {
    var open := s1 + [Poll] + s2 + [Poll];
    LivePart(task, after, s1, s2, s3, k);
    HistoryPart(task, after, s1, s2, s3, k);
  }

  lemma LivePart(task: TaskId, after: EventSeq, s1: seq<Action>, s2: seq<Action>, s3: seq<Action>, k: nat)
    requires Outside(s1) && Outside(s2) && Outside(s3)
    ensures var open := s1 + [Poll] + s2 + [Poll];
            && Receives(Run(task, after, open + s3), Offered(task, after, open, s3, |s3|))
            && (Holds(Offered(task, after, open, s3, |s3|), k) <==> PublishedOpen(task, after, open, s3, |s3|, k))
  {
    var open := s1 + [Poll] + s2 + [Poll];
    OpenedState(task, after, s1, s2);
    QueueIsTheLastOffered(task, after, open, s3, |s3|);
    assert s3[..|s3|] == s3;
    OfferedIsPublished(task, after, open, s3, |s3|, k);
  }

  lemma HistoryPart(task: TaskId, after: EventSeq, s1: seq<Action>, s2: seq<Action>, s3: seq<Action>, k: nat)
    requires Outside(s1) && Outside(s2) && Outside(s3)
    ensures var read := Run(task, after, s1);
            var from := if read.base < after then after else read.base;
            Holds(Run(task, after, s1 + [Poll] + s2 + [Poll] + s3).stream.pending, k) <==>
            from < k <= Store.Min(from + PAGE, |read.log|)
  {
    OpenedState(task, after, s1, s2);
    OutsideKeeps(task, after, s1 + [Poll] + s2 + [Poll], s3, |s3|);
    assert s3[..|s3|] == s3;
    LogIsNumbered(task, after, s1);
    PageNumbers(Run(task, after, s1), after, k);
  }

  lemma OpenedState(task: TaskId, after: EventSeq, s1: seq<Action>, s2: seq<Action>)
    requires Outside(s1) && Outside(s2)
    ensures var w := Run(task, after, s1 + [Poll] + s2 + [Poll]);
            && Receives(w, [])
            && w.stream.pending == HistoryPage(Run(task, after, s1), after)
  {
    var w := Run(task, after, s1);
    assert [] + s1[..|s1|] == s1 && s2[..|s2|] == s2;
    OutsideKeeps(task, after, [], s1, |s1|);
    RunMore(task, after, s1, Poll);
    OutsideKeeps(task, after, s1 + [Poll], s2, |s2|);
    RunMore(task, after, s1 + [Poll] + s2, Poll);
    EveryRunIsOrdered(task, after, s1);
    PageIsListed(w, after);
    AllBeyond(HistoryPage(w, after), after);
  }

  // ---------------------------------------------------------------- waiting

  /** Nothing to deliver and nothing to hear, on a channel that is open. */
  ghost predicate Waits(w: World) {
    w.pc.Idle? && w.stream.pending == [] && !w.stream.terminal && w.queue == [] && !w.lagged && !w.closed
  }

  function Polling(schedule: seq<Action>, n: nat): seq<Action> {
    if n == 0 then schedule else Polling(schedule, n - 1) + [Poll]
  }

  /** The schedule leads to a reader that waits. */
  ghost predicate LeadsToWaiting(task: TaskId, after: EventSeq, schedule: seq<Action>, w: World) {
    w == Run(task, after, schedule) && Waits(w)
  }

  lemma WaitsOn(task: TaskId, after: EventSeq, schedule: seq<Action>, w: World)
    requires LeadsToWaiting(task, after, schedule, w)
    ensures LeadsToWaiting(task, after, schedule + [Poll], w)
  {
    RunMore(task, after, schedule, Poll);
  }

  /** A reader that waits gets nothing from any number of calls. */
  lemma {:induction false} WaitingGetsNothing(task: TaskId, after: EventSeq, schedule: seq<Action>, w: World, n: nat)
    requires LeadsToWaiting(task, after, schedule, w)
    ensures LeadsToWaiting(task, after, Polling(schedule, n), w)
  {
    if n > 0 {
      WaitingGetsNothing(task, after, schedule, w, n - 1);
      WaitsOn(task, after, Polling(schedule, n - 1), w);
    }
  }

  /** One event is committed and published between reading the history and opening the receiver. */
  function Crossing(at: Time, kind: EventKind): seq<Action> {
    [] + [Poll] + [Commit(at, kind)] + [Publish(1)] + [Poll]
  }

  lemma CrossingState(task: TaskId, at: Time, kind: EventKind)
    ensures var w := Run(task, 0, Crossing(at, kind));
            Waits(w) && w.log == [CoreEvent(task, 1, at, kind)] && w.delivered == []
  {
    RunMore(task, 0, [], Poll);
    RunMore(task, 0, [] + [Poll], Commit(at, kind));
    RunMore(task, 0, [] + [Poll] + [Commit(at, kind)], Publish(1));
    RunMore(task, 0, [] + [Poll] + [Commit(at, kind)] + [Publish(1)], Poll);
  }

  /** An event that crosses with the opening is in neither part, and no number of calls alone delivers it. */
  lemma CrossingEventIsMissed(task: TaskId, at: Time, kind: EventKind, n: nat)
    ensures var w := Run(task, 0, Polling(Crossing(at, kind), n));
            |w.log| == 1 && !Holds(w.stream.pending, 1) && w.queue == [] && w.delivered == []
  {
    CrossingState(task, at, kind);
    WaitingGetsNothing(task, 0, Crossing(at, kind), Run(task, 0, Crossing(at, kind)), n);
  }

  // ---------------------------------------------------------------- skipped for good

  lemma HoldsCons(event: CoreEvent, events: seq<CoreEvent>, k: nat)
    ensures Holds([event] + events, k) <==> event.seqNo == k || Holds(events, k)
  {
    if Holds(events, k) {
      var i :| 0 <= i < |events| && events[i].seqNo == k;
      assert ([event] + events)[i + 1].seqNo == k;
    }
    if event.seqNo == k {
      assert ([event] + events)[0].seqNo == k;
    }
  }

  lemma {:induction false} AscendingHolds(m: map<EventSeq, CoreEvent>, keys: set<EventSeq>, k: nat)
    requires keys <= m.Keys && forall j | j in keys :: m[j].seqNo == j
    ensures Holds(Ascending(m, keys), k) <==> k in keys
    decreases |keys|
  {
    if keys != {} {
      var least := Least(keys);
      AscendingHolds(m, keys - {least}, k);
      HoldsCons(m[least], Ascending(m, keys - {least}), k);
    }
  }

  lemma {:induction false} CollectedHolds(lo: nat, page: seq<CoreEvent>, k: nat)
    ensures k in Collected(lo, page) ==> Holds(page, k)
  {
    if page != [] {
      var n := |page| - 1;
      CollectedHolds(lo, page[..n], k);
      HoldsSnoc(page[..n], page[n], k);
      assert page[..n] + [page[n]] == page;
    }
  }

  /** The last event of a number in a page. */
  function Newest(page: seq<CoreEvent>, k: nat): Option<CoreEvent> {
    if page == [] then None
    else if page[|page| - 1].seqNo == k then Some(page[|page| - 1])
    else Newest(page[..|page| - 1], k)
  }

  lemma {:induction false} CollectedIsNewest(lo: nat, page: seq<CoreEvent>, k: nat)
    ensures k in Collected(lo, page) <==> lo < k && Newest(page, k).Some?
    ensures k in Collected(lo, page) ==> Collected(lo, page)[k] == Newest(page, k).value && Collected(lo, page)[k].seqNo == k
  {
    if page != [] {
      CollectedIsNewest(lo, page[..|page| - 1], k);
    }
  }

  ghost predicate Rises(lo: nat, events: seq<CoreEvent>) {
    && (forall i | 0 <= i < |events| :: lo < events[i].seqNo)
    && (forall i, j | 0 <= i < j < |events| :: events[i].seqNo < events[j].seqNo)
  }

  lemma {:induction false} AscendingRises(m: map<EventSeq, CoreEvent>, keys: set<EventSeq>, lo: nat)
    requires keys <= m.Keys && forall k | k in keys :: lo < k && m[k].seqNo == k
    ensures Rises(lo, Ascending(m, keys))
    ensures forall i | 0 <= i < |Ascending(m, keys)| ::
              Ascending(m, keys)[i].seqNo in keys && Ascending(m, keys)[i] == m[Ascending(m, keys)[i].seqNo]
    decreases |keys|
  {
    if keys != {} {
      AscendingRises(m, keys - {Least(keys)}, Least(keys));
    }
  }

  /**
   What a catch-up queues, for any page at all: numbers rise beyond the last delivered one;
   a number is queued exactly when the page or the gap event has it; and the event queued
   under it is the page's last one of that number, or else the gap event.
   */
  lemma CatchUpQueues(lo: nat, page: seq<CoreEvent>, trailing: Option<CoreEvent>, k: nat)
    ensures var merged := Merged(lo, page, trailing);
            && Rises(lo, merged)
            && (Holds(merged, k) <==>
                  lo < k && (Newest(page, k).Some? || (trailing.Some? && trailing.value.seqNo == k)))
            && forall i | 0 <= i < |merged| ::
                 Some(merged[i]) == if Newest(page, merged[i].seqNo).Some? then Newest(page, merged[i].seqNo) else trailing
  {
    var m := WithTrailing(Collected(lo, page), lo, trailing);
    forall j | j in m
      ensures lo < j && m[j].seqNo == j
      ensures Some(m[j]) == if Newest(page, j).Some? then Newest(page, j) else trailing
    {
      CollectedIsNewest(lo, page, j);
    }
    AscendingRises(m, m.Keys, lo);
    AscendingHolds(m, m.Keys, k);
    CollectedIsNewest(lo, page, k);
  }

  /** A merge holds numbers of the page and the trailing event's, and reaches at least that far. */
  lemma MergedNumbers(lo: nat, page: seq<CoreEvent>, event: CoreEvent, log: seq<CoreEvent>, k: nat)
    requires lo < event.seqNo && InLog(event, log) && forall i | 0 <= i < |page| :: InLog(page[i], log)
    ensures var merged := Merged(lo, page, Some(event));
            && merged != [] && event.seqNo <= merged[|merged| - 1].seqNo
            && (Holds(merged, k) ==> Holds(page, k) || k == event.seqNo)
  {
    var m := WithTrailing(Collected(lo, page), lo, Some(event));
    CollectedIsKeyed(lo, page, log);
    AscendingHolds(m, m.Keys, k);
    AscendingHolds(m, m.Keys, event.seqNo);
    CollectedHolds(lo, page, k);
    MergedIsListed(lo, page, Some(event), log);
    LastIsGreatest(lo, Merged(lo, page, Some(event)), log, event.seqNo);
  }

  lemma LastIsGreatest(lo: nat, events: seq<CoreEvent>, log: seq<CoreEvent>, k: nat)
    requires Listed(lo, events, log) && Holds(events, k)
    ensures events != [] && k <= events[|events| - 1].seqNo
  {
  }

  /** What is ready for delivery passes over number `k`. */
  ghost predicate PassesOver(w: World, k: nat) {
    var pending := w.stream.pending;
    pending != [] && !Holds(pending, k) && k < pending[|pending| - 1].seqNo
  }

  /** Number `k` was not delivered, and the stream has passed it, is about to, or has ended. */
  ghost predicate Skipped(w: World, k: nat) {
    && !HasDelivered(w, k)
    && (k <= w.stream.lastSeq || (w.pc.Idle? && (w.stream.terminal || PassesOver(w, k))))
  }

  lemma GiveKeepsSkipped(w: World, k: nat)
    requires Skipped(w, k) && w.pc.Idle? && PassesOver(w, k)
    ensures Skipped(Give(w, w.stream.pending[0], w.stream.pending[1..]), k)
  {
    var pending := w.stream.pending;
    assert !Holds(pending[1..], k) by {
      forall i | 0 <= i < |pending[1..]| ensures pending[1..][i].seqNo != k {
        assert pending[1..][i] == pending[i + 1];
      }
    }
  }

  lemma StepKeepsSkipped(task: TaskId, after: EventSeq, w: World, a: Action, k: nat)
    requires Ordered(after, w) && w.base <= |w.log| && Skipped(w, k)
    ensures Skipped(Step(task, after, w, a), k)
  {
    if k <= w.stream.lastSeq {
      StepAdvances(task, after, w, a);
      AdvancePasses(w, Step(task, after, w, a), k);
    } else if a.Poll? && !w.stream.terminal {
      GiveKeepsSkipped(w, k);
    }
  }

  lemma {:induction false} SkippedForGood(task: TaskId, after: EventSeq, schedule: seq<Action>, more: seq<Action>,
                                          k: nat)
    requires Skipped(Run(task, after, schedule), k)
    ensures Skipped(Run(task, after, schedule + more), k)
    decreases |more|
  {
    if more == [] {
      assert schedule + more == schedule;
    } else {
      var n := |more| - 1;
      SkippedForGood(task, after, schedule, more[..n], k);
      EveryRunIsOrdered(task, after, schedule + more[..n]);
      StepKeepsSkipped(task, after, Run(task, after, schedule + more[..n]), more[n], k);
      RunMore(task, after, schedule + more[..n], more[n]);
      assert schedule + more == schedule + more[..n] + [more[n]];
    }
  }

  /** A number below the gap event that the page does not hold. */
  ghost predicate Unread(w: World, k: nat) {
    && w.pc.CatchingUp? && w.pc.trailing.Some? && w.base <= |w.log|
    && w.stream.lastSeq < k < w.pc.trailing.value.seqNo && !Holds(HistoryPage(w, w.stream.lastSeq), k)
  }

  lemma ReadSkips(after: EventSeq, w: World, k: nat)
    requires Ordered(after, w) && Unread(w, k)
    ensures k <= |w.log| && Skipped(PollStep(after, w), k)
  {
    var lo := w.stream.lastSeq;
    PageIsListed(w, lo);
    MergedNumbers(lo, HistoryPage(w, lo), w.pc.trailing.value, w.log, k);
  }

  /**
   Every number between the last one delivered and a gap event that the read of that gap
   does not return is lost for good: no continuation whatsoever delivers it.
   */
  lemma UnreadIsLostForGood(task: TaskId, after: EventSeq, schedule: seq<Action>, more: seq<Action>, k: nat)
    requires Unread(Run(task, after, schedule), k)
    ensures k <= |Run(task, after, schedule).log|
    ensures !HasDelivered(Run(task, after, schedule + [Poll] + more), k)
  {
    EveryRunIsOrdered(task, after, schedule);
    ReadSkips(after, Run(task, after, schedule), k);
    RunMore(task, after, schedule, Poll);
    SkippedForGood(task, after, schedule + [Poll], more, k);
  }

  /** About to merge a gap event out of reach into a page retention has not touched. */
  ghost predicate FarGap(w: World) {
    w.pc.CatchingUp? && !Near(w) && w.base <= w.stream.lastSeq
  }

  /**
   A reader about to merge a gap event more than 501 ahead loses the number 501 ahead,
   whatever commits, publishes, trims, calls or else come next.
   */
  lemma BeyondReachIsLostForGood(task: TaskId, after: EventSeq, schedule: seq<Action>, more: seq<Action>)
    requires FarGap(Run(task, after, schedule))
    ensures var lost := Run(task, after, schedule).stream.lastSeq + PAGE + 1;
            && lost <= |Run(task, after, schedule).log|
            && !HasDelivered(Run(task, after, schedule + [Poll] + more), lost)
  {
    var lost := Run(task, after, schedule).stream.lastSeq + PAGE + 1;
    FarRunIsUnread(task, after, schedule, lost);
    UnreadIsLostForGood(task, after, schedule, more, lost);
  }

  lemma FarRunIsUnread(task: TaskId, after: EventSeq, schedule: seq<Action>, k: nat)
    requires FarGap(Run(task, after, schedule)) && k == Run(task, after, schedule).stream.lastSeq + PAGE + 1
    ensures Unread(Run(task, after, schedule), k)
  {
    LogIsNumbered(task, after, schedule);
    FarIsUnread(Run(task, after, schedule));
  }

  lemma FarIsUnread(w: World)
    requires FarGap(w) && w.base <= |w.log| && Store.Numbered(w.log, 0)
    ensures Unread(w, w.stream.lastSeq + PAGE + 1)
  {
    PageNumbers(w, w.stream.lastSeq, w.stream.lastSeq + PAGE + 1);
  }
}
