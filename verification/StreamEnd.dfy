/**
 When a stream ends, in every run, tame or not: with an event that ends the task, however it
 was delivered, or with a read after the close that finds nothing; and then for good.
 */
module StreamEnd {
  import opened OrderedMaps
  import opened TaskModel
  import opened ReliableStream
  import opened StreamWorld
  import opened StreamOrder
  import opened StreamGaps
  import Store = MemoryStore

  /** The last event handed out ends the task. */
  ghost predicate HandedTheEnd(w: World) {
    w.delivered != [] && EndsTask(w.delivered[|w.delivered| - 1].kind)
  }

  /** The close of the channel made `next` read the log, and there is nothing beyond what was delivered. */
  ghost predicate FindsNothingAfterClose(w: World, a: Action)
    requires w.base <= |w.log|
  {
    && a.Poll? && w.closed && w.pc.CatchingUp? && w.pc.ended
    && HistoryPage(w, w.stream.lastSeq) == []
  }

  ghost predicate FoundNothing(task: TaskId, after: EventSeq, schedule: seq<Action>, k: nat)
    requires k < |schedule|
  {
    FindsNothingAfterClose(Run(task, after, schedule[..k]), schedule[k])
  }

  ghost predicate EverFoundNothing(task: TaskId, after: EventSeq, schedule: seq<Action>, n: nat)
    requires n <= |schedule|
  {
    exists k: nat | k < n :: FoundNothing(task, after, schedule, k)
  }

  /** The stream has ended exactly for one of the two reasons, and only a stream that has not ended reads the log. */
  ghost predicate EndsFor(w: World, empty: bool) {
    && (w.stream.terminal <==> HandedTheEnd(w) || empty)
    && (w.pc.CatchingUp? ==> !w.stream.terminal && (w.pc.ended ==> w.closed && w.pc.trailing.None?))
    && ((w.pc.Start? || w.pc.Opening?) ==> !w.stream.terminal && w.delivered == [])
  }

  lemma GiveEndsFor(w: World, event: CoreEvent, rest: seq<CoreEvent>)
    requires !w.stream.terminal && w.pc.Idle?
    ensures EndsFor(Give(w, event, rest), false)
  {
  }

  lemma HearEndsFor(w: World, recv: Recv)
    requires EndsFor(w, false) && !w.stream.terminal && w.pc.Idle? && (recv.Closed? ==> w.closed)
    ensures EndsFor(Hear(w, recv), false)
  {
    if recv.Got? && recv.event.seqNo == w.stream.lastSeq + 1 {
      GiveEndsFor(w, recv.event, w.stream.pending);
    }
  }

  lemma {:induction false} CollectsSome(lo: nat, page: seq<CoreEvent>)
    requires page != [] && forall i | 0 <= i < |page| :: lo < page[i].seqNo
    ensures Collected(lo, page).Keys != {}
  {
    assert page[|page| - 1].seqNo in Collected(lo, page);
  }

  /** A read finds something exactly when its page is not empty. */
  lemma MergedIsEmpty(lo: nat, page: seq<CoreEvent>)
    requires forall i | 0 <= i < |page| :: lo < page[i].seqNo
    ensures Merged(lo, page, None) == [] <==> page == []
  {
    if page != [] {
      CollectsSome(lo, page);
    }
  }

  lemma ReadEndsFor(after: EventSeq, w: World)
    requires Ordered(after, w) && w.base <= |w.log| && w.pc.CatchingUp? && EndsFor(w, false)
    ensures EndsFor(PollStep(after, w), FindsNothingAfterClose(w, Poll))
  {
    PageIsListed(w, w.stream.lastSeq);
    if w.pc.ended {
      MergedIsEmpty(w.stream.lastSeq, HistoryPage(w, w.stream.lastSeq));
    }
  }

  lemma PollEndsFor(after: EventSeq, w: World, empty: bool)
    requires Ordered(after, w) && w.base <= |w.log| && EndsFor(w, empty)
    ensures EndsFor(PollStep(after, w), empty || FindsNothingAfterClose(w, Poll))
  {
    if w.pc.CatchingUp? {
      ReadEndsFor(after, w);
    } else if w.pc.Idle? && !w.stream.terminal {
      if w.stream.pending != [] {
        GiveEndsFor(w, w.stream.pending[0], w.stream.pending[1..]);
      } else if w.lagged {
        HearEndsFor(w.(lagged := false), Lagged);
      } else if w.queue != [] {
        HearEndsFor(w.(queue := w.queue[1..]), Got(w.queue[0]));
      } else if w.closed {
        HearEndsFor(w, Closed);
      }
    }
  }

  lemma StepEndsFor(task: TaskId, after: EventSeq, w: World, a: Action, empty: bool)
    requires Ordered(after, w) && w.base <= |w.log| && EndsFor(w, empty)
    ensures EndsFor(Step(task, after, w, a), empty || FindsNothingAfterClose(w, a))
  {
    if a.Poll? {
      PollEndsFor(after, w, empty);
    }
  }

  lemma EverSnoc(task: TaskId, after: EventSeq, schedule: seq<Action>, n: nat)
    requires n < |schedule|
    ensures EverFoundNothing(task, after, schedule, n + 1) <==>
            EverFoundNothing(task, after, schedule, n) || FoundNothing(task, after, schedule, n)
  {
  }

  lemma {:induction false} PrefixEndsFor(task: TaskId, after: EventSeq, schedule: seq<Action>, n: nat)
    requires n <= |schedule|
    ensures EndsFor(Run(task, after, schedule[..n]), EverFoundNothing(task, after, schedule, n))
  {
    if n > 0 {
      PrefixEndsFor(task, after, schedule, n - 1);
      EveryRunIsOrdered(task, after, schedule[..n - 1]);
      StepEndsFor(task, after, Run(task, after, schedule[..n - 1]), schedule[n - 1],
                  EverFoundNothing(task, after, schedule, n - 1));
      RunMore(task, after, schedule[..n - 1], schedule[n - 1]);
      assert schedule[..n - 1] + [schedule[n - 1]] == schedule[..n];
      EverSnoc(task, after, schedule, n - 1);
    }
  }

  /**
   In every run the stream has ended if and only if the last event it handed out is
   Completed, Failed or Cancelled, or a read after the close of the channel found nothing.
   */
  lemma StreamsEndExactly(task: TaskId, after: EventSeq, schedule: seq<Action>)
    ensures var w := Run(task, after, schedule);
            w.stream.terminal <==>
            || (w.delivered != [] && EndsTask(w.delivered[|w.delivered| - 1].kind))
            || EverFoundNothing(task, after, schedule, |schedule|)
  {
    PrefixEndsFor(task, after, schedule, |schedule|);
    assert schedule[..|schedule|] == schedule;
  }

  lemma EndedStepStays(task: TaskId, after: EventSeq, w: World, a: Action)
    requires w.base <= |w.log| && w.stream.terminal && w.pc.Idle?
    ensures var w' := Step(task, after, w, a);
            w'.stream == w.stream && w'.delivered == w.delivered && w'.pc.Idle?
  {
  }

  /** Once ended, a stream never hands out anything again, whatever is committed, published or called. */
  lemma {:induction false} EndedForGood(task: TaskId, after: EventSeq, schedule: seq<Action>, more: seq<Action>)
    requires Run(task, after, schedule).stream.terminal
    ensures var w, w' := Run(task, after, schedule), Run(task, after, schedule + more);
            w'.stream == w.stream && w'.delivered == w.delivered && w'.pc.Idle?
    decreases |more|
  {
    if more == [] {
      assert schedule + more == schedule && schedule[..|schedule|] == schedule;
      PrefixEndsFor(task, after, schedule, |schedule|);
    } else {
      var n := |more| - 1;
      EndedForGood(task, after, schedule, more[..n]);
      EndedStepStays(task, after, Run(task, after, schedule + more[..n]), more[n]);
      RunMore(task, after, schedule + more[..n], more[n]);
      assert schedule + more == schedule + more[..n] + [more[n]];
    }
  }
}
