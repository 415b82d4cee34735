/**
 Live readers out of touch lose events: one that opens its receiver too far behind the
 log, and one that finds a full channel too far ahead of it.
 */
module StreamBehind {
  import opened TaskModel
  import opened Lifecycle
  import opened ReliableStream
  import opened StreamWorld
  import opened StreamOrder
  import opened StreamGaps
  import opened StreamLive
  import Store = MemoryStore

  function Calling(beats: seq<Beat>, n: nat): seq<Beat> {
    if n == 0 then beats else Calling(beats, n - 1) + [Call]
  }

  /** Number `k` will be skipped: the stream has ended, or the next event it hears is out of reach, 501 behind `k`. */
  ghost predicate Doomed(w: World, k: nat) {
    && w.pc.Idle? && !HasDelivered(w, k)
    && (w.stream.terminal ||
        (!w.lagged && w.queue != [] && w.base <= Horizon(w.stream) && Horizon(w.stream) + PAGE + 1 == k &&
         k < w.queue[0].seqNo))
  }

  /** ... once `n` more events are handed out. */
  ghost predicate DoomedAfter(w: World, k: nat, n: nat) {
    Doomed(w, k) && |w.stream.pending| == n
  }

  lemma GiveKeepsDoomed(after: EventSeq, w: World, k: nat)
    requires Ordered(after, w) && w.base <= |w.log| && Doomed(w, k) && !w.stream.terminal && w.stream.pending != []
    ensures var w' := PollStep(after, w);
            Doomed(w', k) && |w'.stream.pending| == |w.stream.pending| - 1
  {
    assert w.stream.pending[0].seqNo <= Horizon(w.stream);
  }

  lemma CallKeepsDoomed(task: TaskId, after: EventSeq, w: World, k: nat, n: nat)
    requires Ordered(after, w) && w.base <= |w.log| && Doomed(w, k) && (w.stream.terminal || |w.stream.pending| == n + 1)
    ensures var w' := Play(task, after, w, Call);
            Doomed(w', k) && (w'.stream.terminal || |w'.stream.pending| == n)
  {
    if !w.stream.terminal {
      GiveKeepsDoomed(after, w, k);
    }
  }

  /** After `n` calls, as long as events are ready for delivery. */
  lemma {:induction false} CallsKeepDoomed(task: TaskId, after: EventSeq, beats: seq<Beat>, m: nat, n: nat, k: nat)
    requires Doomed(Run(task, after, Live(beats)), k) && |Run(task, after, Live(beats)).stream.pending| == m + n
    ensures var w' := Run(task, after, Live(Calling(beats, n)));
            Doomed(w', k) && (w'.stream.terminal || |w'.stream.pending| == m)
    decreases n
  {
    if n > 0 {
      CallsKeepDoomed(task, after, beats, m + 1, n - 1, k);
      EveryRunIsOrdered(task, after, Live(Calling(beats, n - 1)));
      CallKeepsDoomed(task, after, Run(task, after, Live(Calling(beats, n - 1))), k, m);
      LiveRunIsPlayed(task, after, Calling(beats, n - 1), Call);
    }
  }

  lemma DoomedHears(after: EventSeq, w: World, k: nat)
    requires Ordered(after, w) && Doomed(w, k) && !w.stream.terminal && w.stream.pending == [] && w.base <= |w.log|
    ensures Unread(PollStep(after, w), k)
  {
    FarIsUnread(PollStep(after, w));
  }

  lemma DoomedIsSkipped(task: TaskId, after: EventSeq, w: World, k: nat)
    requires Ordered(after, w) && w.base <= |w.log| && Doomed(w, k) && (w.stream.terminal || w.stream.pending == [])
    ensures Skipped(Play(task, after, Play(task, after, w, Call), Call), k)
  {
    if !w.stream.terminal {
      DoomedHears(after, w, k);
      PollIsOrdered(after, w);
      ReadSkips(after, PollStep(after, w), k);
    }
  }

  lemma TwoCallsSkip(task: TaskId, after: EventSeq, beats: seq<Beat>, k: nat)
    requires var w := Run(task, after, Live(beats)); Doomed(w, k) && (w.stream.terminal || w.stream.pending == [])
    ensures Skipped(Run(task, after, Live(beats + [Call] + [Call])), k)
  {
    EveryRunIsOrdered(task, after, Live(beats));
    DoomedIsSkipped(task, after, Run(task, after, Live(beats)), k);
    LiveRunIsPlayed(task, after, beats, Call);
    LiveRunIsPlayed(task, after, beats + [Call], Call);
  }

  lemma CallsSkip(task: TaskId, after: EventSeq, beats: seq<Beat>, n: nat, k: nat)
    requires DoomedAfter(Run(task, after, Live(beats)), k, n)
    ensures Skipped(Run(task, after, Live(Calling(beats, n + 2))), k)
  {
    CallsKeepDoomed(task, after, beats, 0, n, k);
    TwoCallsSkip(task, after, Calling(beats, n), k);
    assert Calling(beats, n + 2) == Calling(beats, n) + [Call] + [Call];
  }

  /** A history read while retention was behind `after` continues it. */
  ghost predicate OpensReady(after: EventSeq, w: World) {
    w.pc.Opening? && w.base <= after ==> StreamWorld.Ready(w.log, after, w.pc.history)
  }

  lemma StepOpensReady(task: TaskId, after: EventSeq, w: World, a: Action)
    requires w.base <= |w.log| && Store.Numbered(w.log, 0) && OpensReady(after, w)
    ensures OpensReady(after, Step(task, after, w, a))
  {
    if a.Poll? && w.pc.Start? && w.base <= after {
      PageIsSlice(w, after);
    } else if a.Commit? && w.pc.Opening? && w.base <= after {
      ReadyGrows(w.log, Step(task, after, w, a).log, after, w.pc.history);
    }
  }

  lemma {:induction false} EveryRunOpensReady(task: TaskId, after: EventSeq, schedule: seq<Action>)
    ensures OpensReady(after, Run(task, after, schedule))
  {
    if schedule != [] {
      var n := |schedule| - 1;
      EveryRunOpensReady(task, after, schedule[..n]);
      LogIsNumbered(task, after, schedule[..n]);
      StepOpensReady(task, after, Run(task, after, schedule[..n]), schedule[n]);
    }
  }

  /** Open the receiver behind too long a backlog and let one more event come. */
  lemma LateOpeningIsDoomed(task: TaskId, after: EventSeq, w: World, beat: Beat)
    requires w.base <= |w.log| && Ordered(after, w) && OpensReady(after, w) && beat.Emit?
    requires w.pc.Opening? && !w.closed && w.base <= after && |w.log| > after + |w.pc.history| + PAGE
    ensures var w' := Play(task, after, Play(task, after, w, Call), beat);
            Doomed(w', after + |w.pc.history| + PAGE + 1) && |w'.stream.pending| == |w.pc.history|
  {
    var w1 := Play(task, after, w, Call);
    AllBeyond(w.pc.history, after);
    EmitShape(task, after, w1, beat);
    var w' := Play(task, after, w1, beat);
    assert w'.queue == [CoreEvent(task, |w.log| + 1, beat.at, beat.kind)];
    assert Horizon(w'.stream) == after + |w.pc.history|;
  }

  /** A full channel whose oldest event is out of reach. */
  lemma FullChannelIsDoomed(after: EventSeq, w: World)
    requires Ordered(after, w) && Aligned(w) && !w.closed && w.base <= w.stream.lastSeq
    requires w.pc.Idle? && w.stream.pending == [] && !w.lagged && |w.queue| == CHANNEL
    requires |w.log| > w.stream.lastSeq + PAGE + CHANNEL
    ensures Doomed(w, w.stream.lastSeq + PAGE + 1)
  {
    assert w.queue[0] == w.log[|w.log| - CHANNEL];
  }

  function Loss(after: EventSeq, w: World): nat {
    (if w.pc.Opening? then after + |w.pc.history| else w.stream.lastSeq) + PAGE + 1
  }

  /** A call to the open channel that finds the reader out of touch, and retention behind it. */
  ghost predicate OutOfTouch(after: EventSeq, w: World) {
    !w.closed && !w.stream.terminal && w.base <= w.stream.lastSeq && !InTouch(after, w)
  }

  lemma LateOpeningDooms(task: TaskId, after: EventSeq, beats: seq<Beat>, beat: Beat, n: nat, k: nat)
    requires var w := Run(task, after, Live(beats));
             OutOfTouch(after, w) && w.pc.Opening? && n == |w.pc.history| && k == Loss(after, w)
    requires beat.Emit?
    ensures DoomedAfter(Run(task, after, Live(beats + [Call] + [beat])), k, n)
  {
    EveryRunIsOrdered(task, after, Live(beats));
    EveryRunOpensReady(task, after, Live(beats));
    LateOpeningIsDoomed(task, after, Run(task, after, Live(beats)), beat);
    LiveRunIsPlayed(task, after, beats, Call);
    LiveRunIsPlayed(task, after, beats + [Call], beat);
  }

  lemma FullChannelDooms(task: TaskId, after: EventSeq, beats: seq<Beat>, n: nat, k: nat)
    requires var w := Run(task, after, Live(beats));
             OutOfTouch(after, w) && !w.pc.Opening? && n == |w.stream.pending| && k == Loss(after, w)
    ensures DoomedAfter(Run(task, after, Live(beats)), k, n)
  {
    EveryRunIsOrdered(task, after, Live(beats));
    LiveRunIsAligned(task, after, beats);
    FullChannelIsDoomed(after, Run(task, after, Live(beats)));
  }

  lemma LateOpeningSkips(task: TaskId, after: EventSeq, beats: seq<Beat>, beat: Beat, n: nat, k: nat)
    requires var w := Run(task, after, Live(beats));
             OutOfTouch(after, w) && w.pc.Opening? && n == |w.pc.history| && k == Loss(after, w)
    requires beat.Emit?
    ensures Skipped(Run(task, after, Live(Calling(beats + [Call] + [beat], n + 2))), k)
  {
    LateOpeningDooms(task, after, beats, beat, n, k);
    CallsSkip(task, after, beats + [Call] + [beat], n, k);
  }

  lemma FullChannelSkips(task: TaskId, after: EventSeq, beats: seq<Beat>, n: nat, k: nat)
    requires var w := Run(task, after, Live(beats));
             OutOfTouch(after, w) && !w.pc.Opening? && n == |w.stream.pending| && k == Loss(after, w)
    ensures Skipped(Run(task, after, Live(Calling(beats, n + 2))), k)
  {
    FullChannelDooms(task, after, beats, n, k);
    CallsSkip(task, after, beats, n, k);
  }

  lemma LossIsInTheLog(task: TaskId, after: EventSeq, schedule: seq<Action>, w: World)
    requires w == Run(task, after, schedule) && OutOfTouch(after, w)
    ensures after < Loss(after, w) <= |w.log|
  {
    EveryRunIsOrdered(task, after, schedule);
  }

  lemma SkippedIsLost(task: TaskId, after: EventSeq, schedule: seq<Action>, more: seq<Action>, k: nat)
    requires Skipped(Run(task, after, schedule), k)
    ensures !HasDelivered(Run(task, after, schedule + more), k)
  {
    SkippedForGood(task, after, schedule, more, k);
  }

  /**
   The converse of `ReadersInTouchAreExact`, first half. In every live run that is about to
   open its receiver out of touch, on an open channel and with retention behind it, one
   more event, whatever it is, and the calls that hand out the `n` events of the history
   and then read, lose number `k` of the log for good.
   */
  lemma LateOpeningLosesANumber(task: TaskId, after: EventSeq, beats: seq<Beat>, beat: Beat, more: seq<Action>,
                                n: nat, k: nat)
    requires var w := Run(task, after, Live(beats));
             OutOfTouch(after, w) && w.pc.Opening? && n == |w.pc.history| && k == Loss(after, w)
    requires beat.Emit?
    ensures after < k <= |Run(task, after, Live(beats)).log|
    ensures !HasDelivered(Run(task, after, Live(Calling(beats + [Call] + [beat], n + 2)) + more), k)
  {
    LossIsInTheLog(task, after, Live(beats), Run(task, after, Live(beats)));
    LateOpeningSkips(task, after, beats, beat, n, k);
    SkippedIsLost(task, after, Live(Calling(beats + [Call] + [beat], n + 2)), more, k);
  }

  /**
   The second half: a call that hears a full channel out of touch, and the read it asks
   for, lose `k` for good. (`n` is 0: nothing is waiting for delivery.)
   */
  lemma FullChannelLosesANumber(task: TaskId, after: EventSeq, beats: seq<Beat>, more: seq<Action>, n: nat, k: nat)
    requires var w := Run(task, after, Live(beats));
             OutOfTouch(after, w) && !w.pc.Opening? && n == |w.stream.pending| && k == Loss(after, w)
    ensures after < k <= |Run(task, after, Live(beats)).log|
    ensures !HasDelivered(Run(task, after, Live(Calling(beats, n + 2)) + more), k)
  {
    LossIsInTheLog(task, after, Live(beats), Run(task, after, Live(beats)));
    FullChannelSkips(task, after, beats, n, k);
    SkippedIsLost(task, after, Live(Calling(beats, n + 2)), more, k);
  }
}
