/**
 A live reader that waits for the channel: whether it has everything depends on whether it
 has heard anything since it opened its receiver.
 */
module StreamWaits {
  import opened TaskModel
  import opened Lifecycle
  import opened ReliableStream
  import opened StreamWorld
  import opened StreamOrder
  import opened StreamGaps
  import opened StreamLive
  import Store = MemoryStore

  /** Nothing was emitted since the opening: delivery ends where the history did. */
  ghost predicate Untold(w: World, length: nat, reach: nat) {
    || w.closed || w.stream.terminal
    || (w.pc.Idle? && w.queue == [] && !w.lagged && |w.log| == length && Horizon(w.stream) == reach)
  }

  /** Something was emitted since the opening: the last event is in the channel, in hand, or on its way. */
  ghost predicate Told(w: World) {
    || w.closed || w.stream.terminal || w.queue != []
    || (w.pc.Idle? && |w.log| <= Horizon(w.stream))
    || (w.pc.CatchingUp? && w.pc.trailing.Some? && w.pc.trailing.value.seqNo == |w.log| && w.stream.lastSeq < |w.log|)
  }

  ghost predicate Opened(w: World) {
    w.pc.Idle? || w.pc.CatchingUp?
  }

  lemma EmitTells(task: TaskId, after: EventSeq, w: World, beat: Beat)
    requires w.base <= |w.log| && Opened(w) && beat.Emit?
    ensures Opened(Play(task, after, w, beat)) && Told(Play(task, after, w, beat))
  {
    EmitShape(task, after, w, beat);
  }

  lemma UntoldStays(task: TaskId, after: EventSeq, w: World, beat: Beat, length: nat, reach: nat)
    requires w.base <= |w.log| && Opened(w) && !beat.Emit? && Untold(w, length, reach)
    ensures Opened(Play(task, after, w, beat)) && Untold(Play(task, after, w, beat), length, reach)
  {
  }

  lemma HearingTells(w: World)
    requires Store.Numbered(w.log, 0) && Aligned(w) && !w.closed && w.pc.Idle? && w.queue != [] && w.stream.pending == []
    ensures Told(Hear(w.(queue := w.queue[1..]), Got(w.queue[0])))
  {
    if |w.queue| == 1 {
      assert w.queue[0] == w.log[|w.log| - 1];
    }
  }

  lemma ReadTells(after: EventSeq, w: World)
    requires Ordered(after, w) && w.base <= |w.log| && w.pc.CatchingUp? && Told(w)
    ensures Told(PollStep(after, w))
  {
    if w.pc.trailing.Some? && w.stream.lastSeq < w.pc.trailing.value.seqNo {
      PageIsListed(w, w.stream.lastSeq);
      MergedNumbers(w.stream.lastSeq, HistoryPage(w, w.stream.lastSeq), w.pc.trailing.value, w.log, 0);
    }
  }

  lemma CallTells(after: EventSeq, w: World)
    requires Ordered(after, w) && Aligned(w) && w.base <= |w.log| && Opened(w) && Told(w)
    ensures Opened(PollStep(after, w)) && Told(PollStep(after, w))
  {
    if w.pc.CatchingUp? {
      ReadTells(after, w);
    } else if !w.closed && !w.stream.terminal && w.stream.pending == [] && !w.lagged && w.queue != [] {
      HearingTells(w);
    }
  }

  lemma ToldStays(task: TaskId, after: EventSeq, w: World, beat: Beat)
    requires Ordered(after, w) && Aligned(w) && w.base <= |w.log| && Opened(w) && Told(w)
    ensures Opened(Play(task, after, w, beat)) && Told(Play(task, after, w, beat))
  {
    if beat.Emit? {
      EmitTells(task, after, w, beat);
    } else if beat.Call? {
      CallTells(after, w);
    }
  }

  /** Where a reader stands, by whether anything was emitted since the opening. */
  ghost predicate Informed(w: World, emitted: nat, length: nat, reach: nat) {
    Opened(w) && if emitted == 0 then Untold(w, length, reach) else Told(w)
  }

  lemma {:induction false} StaysInformed(task: TaskId, after: EventSeq, start: seq<Beat>, beats: seq<Beat>, n: nat,
                                         length: nat, reach: nat)
    requires n <= |beats| && Informed(Run(task, after, Live(start)), 0, length, reach)
    ensures Informed(Run(task, after, Live(start + beats[..n])), Emitted(beats[..n]), length, reach)
  {
    if n == 0 {
      assert start + beats[..0] == start;
    } else {
      StaysInformed(task, after, start, beats, n - 1, length, reach);
      OneMoreBeat(start, beats, n);
      InformedNext(task, after, start + beats[..n - 1], beats[n - 1], Emitted(beats[..n - 1]), length, reach);
    }
  }

  lemma OneMoreBeat(start: seq<Beat>, beats: seq<Beat>, n: nat)
    requires 0 < n <= |beats|
    ensures start + beats[..n] == start + beats[..n - 1] + [beats[n - 1]]
    ensures Emitted(beats[..n]) == Emitted(beats[..n - 1]) + if beats[n - 1].Emit? then 1 else 0
  {
    assert beats[..n] == beats[..n - 1] + [beats[n - 1]];
    LiveSnoc(beats[..n - 1], beats[n - 1]);
  }

  lemma InformedNext(task: TaskId, after: EventSeq, beats: seq<Beat>, beat: Beat, emitted: nat, length: nat,
                     reach: nat)
    requires Informed(Run(task, after, Live(beats)), emitted, length, reach)
    ensures Informed(Run(task, after, Live(beats + [beat])), emitted + (if beat.Emit? then 1 else 0), length, reach)
  {
    EveryRunIsOrdered(task, after, Live(beats));
    LiveRunIsAligned(task, after, beats);
    InformedPlay(task, after, Run(task, after, Live(beats)), beat, emitted, length, reach);
    LiveRunIsPlayed(task, after, beats, beat);
  }

  lemma InformedPlay(task: TaskId, after: EventSeq, w: World, beat: Beat, emitted: nat, length: nat, reach: nat)
    requires Ordered(after, w) && Aligned(w) && w.base <= |w.log| && Informed(w, emitted, length, reach)
    ensures Informed(Play(task, after, w, beat), emitted + (if beat.Emit? then 1 else 0), length, reach)
  {
    if emitted > 0 {
      ToldStays(task, after, w, beat);
    } else if beat.Emit? {
      EmitTells(task, after, w, beat);
    } else {
      UntoldStays(task, after, w, beat, length, reach);
    }
  }

  /** The last number the history covers. */
  function Covers(after: EventSeq, history: seq<CoreEvent>): nat {
    if history == [] then after else history[|history| - 1].seqNo
  }

  lemma OpeningIsUntold(task: TaskId, after: EventSeq, w: World)
    requires w.base <= |w.log| && Ordered(after, w) && w.pc.Opening?
    ensures Informed(Play(task, after, w, Call), 0, |w.log|, Covers(after, w.pc.history))
  {
    AllBeyond(w.pc.history, after);
  }

  lemma OpensInformed(task: TaskId, after: EventSeq, start: seq<Beat>)
    requires Run(task, after, Live(start)).pc.Opening?
    ensures var w := Run(task, after, Live(start));
            Informed(Run(task, after, Live(start + [Call])), 0, |w.log|, Covers(after, w.pc.history))
  {
    EveryRunIsOrdered(task, after, Live(start));
    OpeningIsUntold(task, after, Run(task, after, Live(start)));
    LiveRunIsPlayed(task, after, start, Call);
  }

  lemma WaitingTells(w: World, emitted: nat, length: nat, reach: nat)
    requires Waits(w) && Informed(w, emitted, length, reach)
    ensures emitted > 0 ==> |w.log| <= w.stream.lastSeq
    ensures emitted == 0 ==> |w.log| == length && w.stream.lastSeq == reach
  {
  }

  /**
   When waiting means having everything, exactly. The receiver is opened after `start`,
   and `beats` follow. If the reader then waits on an open channel, it has reached the end
   of the log if and only if the log did not go beyond the history at the opening, or an
   event was emitted since.
   */
  lemma WaitingReadersHaveEverythingExactly(task: TaskId, after: EventSeq, start: seq<Beat>, beats: seq<Beat>)
    requires Run(task, after, Live(start)).pc.Opening?
    requires Waits(Run(task, after, Live(start + [Call] + beats)))
    ensures var w0, w := Run(task, after, Live(start)), Run(task, after, Live(start + [Call] + beats));
            |w.log| <= w.stream.lastSeq <==>
            |w0.log| <= Covers(after, w0.pc.history) || Emitted(beats) > 0
  {
    var w0 := Run(task, after, Live(start));
    OpensInformed(task, after, start);
    assert beats[..|beats|] == beats;
    StaysInformed(task, after, start + [Call], beats, |beats|, |w0.log|, Covers(after, w0.pc.history));
    WaitingTells(Run(task, after, Live(start + [Call] + beats)), Emitted(beats), |w0.log|,
                 Covers(after, w0.pc.history));
  }
}
