/**
 The usual case: every event is published directly after its commit, in order and none
 skipped, and no read fails. How far behind a reader may fall before events are lost.
 */
module StreamLive {
  import opened TaskModel
  import opened Lifecycle
  import opened ReliableStream
  import opened StreamWorld
  import opened StreamOrder
  import opened StreamGaps
  import Store = MemoryStore

  /** One event committed and published, the channel closed, the log cut, or one step of `next`. */
  datatype Beat = Emit(at: Time, kind: EventKind) | Shut | Cut(upTo: nat) | Call

  function Emitted(beats: seq<Beat>): nat {
    if beats == [] then 0
    else Emitted(beats[..|beats| - 1]) + if beats[|beats| - 1].Emit? then 1 else 0
  }

  function Acts(beat: Beat, number: nat): seq<Action> {
    match beat
    case Emit(at, kind) => [Commit(at, kind), Publish(number)]
    case Shut => [Close]
    case Cut(upTo) => [Trim(upTo)]
    case Call => [Poll]
  }

  function Live(beats: seq<Beat>): seq<Action> {
    if beats == [] then []
    else
      var n := |beats| - 1;
      Live(beats[..n]) + Acts(beats[n], Emitted(beats[..n]) + 1)
  }

  ghost function Play(task: TaskId, after: EventSeq, w: World, beat: Beat): (w': World)
    requires w.base <= |w.log|
    ensures w'.base <= |w'.log|
  {
    match beat
    case Emit(at, kind) => Step(task, after, Step(task, after, w, Commit(at, kind)), Publish(|w.log| + 1))
    case Shut => Step(task, after, w, Close)
    case Cut(upTo) => Step(task, after, w, Trim(upTo))
    case Call => Step(task, after, w, Poll)
  }

  lemma LiveSnoc(beats: seq<Beat>, beat: Beat)
    ensures Live(beats + [beat]) == Live(beats) + Acts(beat, Emitted(beats) + 1)
    ensures Emitted(beats + [beat]) == Emitted(beats) + if beat.Emit? then 1 else 0
  {
    assert (beats + [beat])[..|beats|] == beats;
  }

  lemma EmitIsRun(task: TaskId, after: EventSeq, schedule: seq<Action>, beat: Beat, w: World)
    requires beat.Emit? && w == Run(task, after, schedule)
    ensures Run(task, after, schedule + Acts(beat, |w.log| + 1)) == Play(task, after, w, beat)
  {
    var commit, publish := Commit(beat.at, beat.kind), Publish(|w.log| + 1);
    RunMore(task, after, schedule, commit);
    RunMore(task, after, schedule + [commit], publish);
    assert schedule + Acts(beat, |w.log| + 1) == schedule + [commit] + [publish];
  }

  lemma OneActIsRun(task: TaskId, after: EventSeq, schedule: seq<Action>, beat: Beat, w: World)
    requires !beat.Emit? && w == Run(task, after, schedule)
    ensures Run(task, after, schedule + Acts(beat, |w.log| + 1)) == Play(task, after, w, beat)
  {
    RunMore(task, after, schedule, Acts(beat, |w.log| + 1)[0]);
    assert Acts(beat, |w.log| + 1) == [Acts(beat, |w.log| + 1)[0]];
  }

  /** Running the actions of one more beat is playing it. */
  lemma PlayIsRun(task: TaskId, after: EventSeq, schedule: seq<Action>, beat: Beat, w: World)
    requires w == Run(task, after, schedule)
    ensures Run(task, after, schedule + Acts(beat, |w.log| + 1)) == Play(task, after, w, beat)
  {
    if beat.Emit? {
      EmitIsRun(task, after, schedule, beat, w);
    } else {
      OneActIsRun(task, after, schedule, beat, w);
    }
  }

  lemma PlayGrows(task: TaskId, after: EventSeq, w: World, beat: Beat)
    requires w.base <= |w.log|
    ensures |Play(task, after, w, beat).log| == |w.log| + if beat.Emit? then 1 else 0
  {
  }

  /** The world after the first `n` beats, and its log counts the events emitted. */
  ghost predicate Reaches(task: TaskId, after: EventSeq, beats: seq<Beat>, w: World) {
    w == Run(task, after, Live(beats)) && |w.log| == Emitted(beats)
  }

  lemma ReachesNext(task: TaskId, after: EventSeq, beats: seq<Beat>, beat: Beat, w: World)
    requires Reaches(task, after, beats, w)
    ensures w.base <= |w.log| && Reaches(task, after, beats + [beat], Play(task, after, w, beat))
    ensures Live(beats + [beat]) == Live(beats) + Acts(beat, |w.log| + 1)
  {
    LiveSnoc(beats, beat);
    PlayIsRun(task, after, Live(beats), beat, w);
    PlayGrows(task, after, w, beat);
  }

  /** The log of a live run counts the events emitted. */
  ghost predicate Counts(task: TaskId, after: EventSeq, beats: seq<Beat>) {
    Reaches(task, after, beats, Run(task, after, Live(beats)))
  }

  lemma CountsNext(task: TaskId, after: EventSeq, beats: seq<Beat>, beat: Beat)
    requires Counts(task, after, beats)
    ensures Counts(task, after, beats + [beat])
    ensures Run(task, after, Live(beats + [beat])) == Play(task, after, Run(task, after, Live(beats)), beat)
  {
    ReachesNext(task, after, beats, beat, Run(task, after, Live(beats)));
  }

  lemma PrefixCounts(task: TaskId, after: EventSeq, beats: seq<Beat>, n: nat)
    requires n < |beats| && Counts(task, after, beats[..n])
    ensures Counts(task, after, beats[..n + 1])
  {
    assert beats[..n] + [beats[n]] == beats[..n + 1];
    CountsNext(task, after, beats[..n], beats[n]);
  }

  lemma {:induction false} EveryLiveRunCounts(task: TaskId, after: EventSeq, beats: seq<Beat>, n: nat)
    requires n <= |beats|
    ensures Counts(task, after, beats[..n])
  {
    if n > 0 {
      EveryLiveRunCounts(task, after, beats, n - 1);
      PrefixCounts(task, after, beats, n - 1);
    }
  }

  /** Every live run is played beat by beat. */
  lemma LiveRunIsPlayed(task: TaskId, after: EventSeq, beats: seq<Beat>, beat: Beat)
    ensures Run(task, after, Live(beats + [beat])) == Play(task, after, Run(task, after, Live(beats)), beat)
  {
    EveryLiveRunCounts(task, after, beats, |beats|);
    assert beats[..|beats|] == beats;
    CountsNext(task, after, beats, beat);
  }

  // ---------------------------------------------------------------- how far behind is safe

  /**
   At a call: a receiver being opened is at most 500 events behind what the history
   returned, and a reader about to hear a full channel is at most 756 events behind.
   */
  ghost predicate InTouch(after: EventSeq, w: World) {
    && (w.pc.Opening? ==> |w.log| <= after + |w.pc.history| + 500)
    && (w.pc.Idle? && w.stream.pending == [] && !w.lagged && |w.queue| == 256 ==>
          |w.log| <= w.stream.lastSeq + 756)
  }

  /** The queue is the end of what was published, up to number `sent`. */
  ghost predicate Tail(w: World, sent: nat) {
    && |w.queue| <= CHANNEL && |w.queue| <= sent <= |w.log|
    && w.queue == w.log[sent - |w.queue|..sent]
    && (!w.closed ==> sent == |w.log|)
    && (w.lagged ==> |w.queue| == CHANNEL)
  }

  /** What the queue leaves out is within reach of a read, or the channel is full. */
  ghost predicate Reachable(after: EventSeq, w: World, sent: nat) {
    match w.pc
    case Start => w.queue == [] && !w.lagged
    case Opening(_) => w.queue == [] && !w.lagged
    case Idle =>
      && Tail(w, sent)
      && (|w.queue| == CHANNEL || sent - |w.queue| <= w.stream.lastSeq + |w.stream.pending| + PAGE)
    case CatchingUp(trailing, _) =>
      && Tail(w, sent) && Near(w)
      && (|w.queue| == CHANNEL ||
          sent - |w.queue| <= if trailing.Some? then trailing.value.seqNo else w.stream.lastSeq + PAGE)
  }

  lemma EmitShape(task: TaskId, after: EventSeq, w: World, beat: Beat)
    requires w.base <= |w.log| && beat.Emit?
    ensures var event := CoreEvent(task, |w.log| + 1, beat.at, beat.kind);
            Play(task, after, w, beat) == Send(w.(log := w.log + [event]), event)
  {
  }

  lemma EmitIsReachable(task: TaskId, after: EventSeq, w: World, beat: Beat, sent: nat)
    requires w.base <= |w.log| && Reachable(after, w, sent) && beat.Emit?
    ensures Reachable(after, Play(task, after, w, beat), if w.closed then sent else |w.log| + 1)
  {
    EmitShape(task, after, w, beat);
    if w.pc.Idle? || w.pc.CatchingUp? {
      EmitKeepsTail(w, CoreEvent(task, |w.log| + 1, beat.at, beat.kind), sent);
    }
  }

  lemma EmitKeepsTail(w: World, event: CoreEvent, sent: nat)
    requires Tail(w, sent) && (w.pc.Idle? || w.pc.CatchingUp?)
    ensures var w' := Send(w.(log := w.log + [event]), event);
            var sent' := if w.closed then sent else |w.log| + 1;
            && Tail(w', sent')
            && (|w'.queue| == CHANNEL || sent' - |w'.queue| == sent - |w.queue|)
  {
    var log' := w.log + [event];
    assert log'[sent - |w.queue|..sent] == w.log[sent - |w.queue|..sent];
    if !w.closed {
      assert log'[sent - |w.queue|..|log'|] == w.queue + [event];
    }
  }

  lemma HearIsReachable(after: EventSeq, w: World, sent: nat)
    requires Good(after, w) && Reachable(after, w, sent) && InTouch(after, w)
    requires w.pc.Idle? && !w.stream.terminal && w.stream.pending == [] && !w.lagged && w.queue != []
    ensures Reachable(after, Hear(w.(queue := w.queue[1..]), Got(w.queue[0])), sent)
  {
    var first := sent - |w.queue|;
    assert first <= w.stream.lastSeq + PAGE;
    assert w.queue[0] == w.log[first] && w.queue[0].seqNo == first + 1;
    assert w.queue[1..] == w.log[first + 1..sent];
  }

  lemma ReadIsReachable(after: EventSeq, w: World, sent: nat)
    requires Good(after, w) && Reachable(after, w, sent) && Covered(after, w) && w.base <= |w.log|
    requires w.pc.CatchingUp?
    ensures Reachable(after, PollStep(after, w), sent)
  {
    if w.pc.trailing.Some? {
      var lo, event := w.stream.lastSeq, w.pc.trailing.value;
      PageIsSlice(w, lo);
      MergeTrailing(w.log, lo, event);
    }
  }

  lemma OpenIsReachable(after: EventSeq, w: World)
    requires Good(after, w) && Covered(after, w) && InTouch(after, w) && w.base <= |w.log|
    requires w.pc.Start? || w.pc.Opening?
    requires w.queue == [] && !w.lagged
    ensures Reachable(after, PollStep(after, w), |w.log|)
  {
    if w.pc.Opening? {
      Store.SeqAfterIsSlice(w.pc.history, after, after);
    }
  }

  lemma CallIsReachable(after: EventSeq, w: World, sent: nat) returns (sent': nat)
    requires Good(after, w) && Reachable(after, w, sent) && w.base <= |w.log|
    requires InTouch(after, w) && Covered(after, w)
    ensures Reachable(after, PollStep(after, w), sent')
  {
    if w.pc.Start? || w.pc.Opening? {
      OpenIsReachable(after, w);
      sent' := |w.log|;
    } else {
      sent' := sent;
      if w.pc.CatchingUp? {
        ReadIsReachable(after, w, sent);
      } else if !w.stream.terminal && w.stream.pending == [] && !w.lagged && w.queue != [] {
        HearIsReachable(after, w, sent);
      } else {
        OtherIdleIsReachable(after, w, sent);
      }
    }
  }

  lemma OtherIdleIsReachable(after: EventSeq, w: World, sent: nat)
    requires Reachable(after, w, sent) && w.base <= |w.log| && w.pc.Idle?
    requires w.stream.terminal || w.stream.pending != [] || w.lagged || w.queue == []
    requires Good(after, w)
    ensures Reachable(after, PollStep(after, w), sent)
  {
    if !w.stream.terminal && w.stream.pending != [] {
      ReadyTail(w.log, w.stream.lastSeq, w.stream.pending);
    }
  }

  /** The call at place `i` finds the reader in touch and retention behind it. */
  ghost predicate Fit(task: TaskId, after: EventSeq, beats: seq<Beat>, i: nat)
    requires i < |beats|
  {
    beats[i].Call? ==>
      InTouch(after, Run(task, after, Live(beats[..i]))) && Covered(after, Run(task, after, Live(beats[..i])))
  }

  ghost predicate Fine(task: TaskId, after: EventSeq, beats: seq<Beat>, w: World, sent: nat) {
    Reaches(task, after, beats, w) && Tame(task, after, Live(beats)) && Good(after, w) && Reachable(after, w, sent)
  }

  lemma BeatIsFine(task: TaskId, after: EventSeq, beats: seq<Beat>, beat: Beat, w: World, sent: nat)
    returns (sent': nat)
    requires Fine(task, after, beats, w, sent)
    requires beat.Call? ==> InTouch(after, w) && Covered(after, w)
    ensures w.base <= |w.log| && Fine(task, after, beats + [beat], Play(task, after, w, beat), sent')
  {
    ReachesNext(task, after, beats, beat, w);
    BeatIsTame(task, after, Live(beats), beat, |w.log| + 1);
    PlayIsGood(task, after, w, beat);
    sent' := PlayIsReachable(task, after, w, beat, sent);
  }

  lemma {:induction false} PrefixIsFine(task: TaskId, after: EventSeq, beats: seq<Beat>, n: nat)
    returns (w: World, sent: nat)
    requires n <= |beats| && forall i: nat | i < |beats| :: Fit(task, after, beats, i)
    ensures Fine(task, after, beats[..n], w, sent)
  {
    if n == 0 {
      w, sent := Initial(after), 0;
    } else {
      var w0, before := PrefixIsFine(task, after, beats, n - 1);
      w, sent := NextIsFine(task, after, beats, n - 1, w0, before);
    }
  }

  lemma NextIsFine(task: TaskId, after: EventSeq, beats: seq<Beat>, n: nat, w: World, sent: nat)
    returns (w': World, sent': nat)
    requires n < |beats| && Fine(task, after, beats[..n], w, sent) && Fit(task, after, beats, n)
    ensures Fine(task, after, beats[..n + 1], w', sent')
  {
    assert beats[..n] + [beats[n]] == beats[..n + 1];
    sent' := BeatIsFine(task, after, beats[..n], beats[n], w, sent);
    w' := Play(task, after, w, beats[n]);
  }

  /**
   With every event published directly after its commit and no failing read, a reader
   that is in touch at each of its calls never meets a gap event out of reach: it stays
   exact, however long the log and however often it lags.
   */
  lemma ReadersInTouchAreExact(task: TaskId, after: EventSeq, beats: seq<Beat>)
    requires forall i: nat | i < |beats| :: Fit(task, after, beats, i)
    ensures Tame(task, after, Live(beats)) && Exact(after, Run(task, after, Live(beats)))
  {
    var w, sent := PrefixIsFine(task, after, beats, |beats|);
    assert beats[..|beats|] == beats;
  }

  lemma PlayIsGood(task: TaskId, after: EventSeq, w: World, beat: Beat)
    requires Good(after, w) && w.base <= |w.log| && (beat.Call? ==> Near(w) && Covered(after, w))
    ensures Good(after, Play(task, after, w, beat))
  {
    match beat
    case Emit(at, kind) =>
      StepIsGood(task, after, w, Commit(at, kind));
      StepIsGood(task, after, Step(task, after, w, Commit(at, kind)), Publish(|w.log| + 1));
    case Shut => StepIsGood(task, after, w, Close);
    case Cut(upTo) => StepIsGood(task, after, w, Trim(upTo));
    case Call => StepIsGood(task, after, w, Poll);
  }

  lemma PlayIsReachable(task: TaskId, after: EventSeq, w: World, beat: Beat, sent: nat) returns (sent': nat)
    requires Good(after, w) && w.base <= |w.log| && Reachable(after, w, sent)
    requires beat.Call? ==> InTouch(after, w) && Covered(after, w)
    ensures Reachable(after, Play(task, after, w, beat), sent')
  {
    if beat.Emit? {
      sent' := if w.closed then sent else |w.log| + 1;
      EmitIsReachable(task, after, w, beat, sent);
    } else if beat.Call? {
      sent' := CallIsReachable(after, w, sent);
    } else {
      sent' := sent;
      QuietIsReachable(task, after, w, beat, sent);
    }
  }

  lemma QuietIsReachable(task: TaskId, after: EventSeq, w: World, beat: Beat, sent: nat)
    requires w.base <= |w.log| && Reachable(after, w, sent) && (beat.Shut? || beat.Cut?)
    ensures Reachable(after, Play(task, after, w, beat), sent)
  {
  }

  lemma BeatIsTame(task: TaskId, after: EventSeq, schedule: seq<Action>, beat: Beat, number: nat)
    requires Tame(task, after, schedule)
    requires beat.Call? ==> Near(Run(task, after, schedule)) && Covered(after, Run(task, after, schedule))
    ensures Tame(task, after, schedule + Acts(beat, number))
  {
    if beat.Emit? {
      OneMoreTame(task, after, schedule, Commit(beat.at, beat.kind));
      OneMoreTame(task, after, schedule + [Commit(beat.at, beat.kind)], Publish(number));
      assert schedule + Acts(beat, number) == schedule + [Commit(beat.at, beat.kind)] + [Publish(number)];
    } else {
      OneMoreTame(task, after, schedule, Acts(beat, number)[0]);
      assert Acts(beat, number) == [Acts(beat, number)[0]];
    }
  }

  lemma OneMoreTame(task: TaskId, after: EventSeq, schedule: seq<Action>, a: Action)
    requires Tame(task, after, schedule)
    requires a.Poll? ==> Near(Run(task, after, schedule)) && Covered(after, Run(task, after, schedule))
    ensures Tame(task, after, schedule + [a])
  {
    assert (schedule + [a])[..|schedule|] == schedule;
    TameSnoc(task, after, schedule + [a]);
  }

  // ---------------------------------------------------------------- the channel holds the end of the log

  /** An open receiver's queue is the end of the log. */
  ghost predicate Aligned(w: World) {
    || w.closed || w.pc.Start? || w.pc.Opening?
    || (|w.queue| <= |w.log| && w.queue == w.log[|w.log| - |w.queue|..] && (w.lagged ==> w.queue != []))
  }

  lemma TailGrows(log: seq<CoreEvent>, queue: seq<CoreEvent>, event: CoreEvent)
    requires |queue| <= |log| && queue == log[|log| - |queue|..]
    ensures (log + [event])[|log| - |queue|..] == queue + [event]
    ensures (log + [event])[|log| + 1 - |queue|..] == (queue + [event])[1..]
  {
  }

  lemma EmitAligns(task: TaskId, after: EventSeq, w: World, beat: Beat)
    requires w.base <= |w.log| && Aligned(w) && beat.Emit?
    ensures Aligned(Play(task, after, w, beat))
  {
    EmitShape(task, after, w, beat);
    if !w.closed && (w.pc.Idle? || w.pc.CatchingUp?) {
      TailGrows(w.log, w.queue, CoreEvent(task, |w.log| + 1, beat.at, beat.kind));
    }
  }

  lemma HearAligns(w: World)
    requires Aligned(w) && w.pc.Idle? && w.queue != [] && !w.closed && !w.lagged
    ensures Aligned(Hear(w.(queue := w.queue[1..]), Got(w.queue[0])))
  {
    TailShrinks(w.log, w.queue);
  }

  lemma CallAligns(task: TaskId, after: EventSeq, w: World)
    requires w.base <= |w.log| && Aligned(w)
    ensures Aligned(Play(task, after, w, Call))
  {
    if w.pc.Idle? && !w.closed && !w.stream.terminal && w.stream.pending == [] && !w.lagged && w.queue != [] {
      HearAligns(w);
    }
  }

  lemma TailShrinks(log: seq<CoreEvent>, queue: seq<CoreEvent>)
    requires 0 < |queue| <= |log| && queue == log[|log| - |queue|..]
    ensures queue[1..] == log[|log| - |queue[1..]|..]
  {
  }

  lemma PlayAligns(task: TaskId, after: EventSeq, w: World, beat: Beat)
    requires w.base <= |w.log| && Aligned(w)
    ensures Aligned(Play(task, after, w, beat))
  {
    if beat.Emit? {
      EmitAligns(task, after, w, beat);
    } else if beat.Call? {
      CallAligns(task, after, w);
    }
  }

  lemma {:induction false} EveryLiveRunIsAligned(task: TaskId, after: EventSeq, beats: seq<Beat>, n: nat)
    requires n <= |beats|
    ensures Aligned(Run(task, after, Live(beats[..n])))
  {
    if n > 0 {
      EveryLiveRunIsAligned(task, after, beats, n - 1);
      PrefixAligns(task, after, beats, n - 1);
    }
  }

  lemma PrefixAligns(task: TaskId, after: EventSeq, beats: seq<Beat>, n: nat)
    requires n < |beats| && Aligned(Run(task, after, Live(beats[..n])))
    ensures Aligned(Run(task, after, Live(beats[..n + 1])))
  {
    assert beats[..n] + [beats[n]] == beats[..n + 1];
    LiveRunIsPlayed(task, after, beats[..n], beats[n]);
    PlayAligns(task, after, Run(task, after, Live(beats[..n])), beats[n]);
  }

  lemma LiveRunIsAligned(task: TaskId, after: EventSeq, beats: seq<Beat>)
    ensures Aligned(Run(task, after, Live(beats)))
  {
    EveryLiveRunIsAligned(task, after, beats, |beats|);
    assert beats[..|beats|] == beats;
  }

  /** The number delivery is under way to. */
  function Horizon(s: Stream): nat {
    if s.pending == [] then s.lastSeq else s.pending[|s.pending| - 1].seqNo
  }
}
