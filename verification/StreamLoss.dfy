/**
 A running task whose events are published directly after their commit, and readers that
 miss some of them: one that subscribes behind a backlog, and one that lets the channel
 overflow.
 */
module StreamLoss {
  import opened TaskModel
  import opened Lifecycle
  import opened ReliableStream
  import opened StreamWorld
  import opened StreamOrder
  import opened StreamGaps
  import opened StreamLive
  import opened StreamBehind
  import Store = MemoryStore

  // ---------------------------------------------------------------- a running task

  function KindAt(i: nat): EventKind {
    if i == 0 then AcceptedEvent(false) else ProgressEvent("working", None)
  }

  function EventAt(task: TaskId, i: nat): CoreEvent {
    CoreEvent(task, i + 1, 0, KindAt(i))
  }

  /** A running task's log of n events. */
  function Steady(task: TaskId, n: nat): (log: seq<CoreEvent>)
    ensures |log| == n && forall i | 0 <= i < n :: log[i] == EventAt(task, i)
  {
    if n == 0 then [] else Steady(task, n - 1) + [EventAt(task, n - 1)]
  }

  lemma SteadyIsLegal(task: TaskId, n: nat)
    ensures Legal(Kinds(Steady(task, n)))
  {
    var log := Kinds(Steady(task, n));
    forall i | 0 <= i < |log| ensures Enabled(StateOf(log[..i]), log[i]) {
      assert log[i] == KindAt(i);
      if i > 0 {
        assert log[..i][i - 1] == KindAt(i - 1);
      }
    }
  }

  /** The beats, then the task's events up to the n-th. */
  function Emitting(beats: seq<Beat>, from: nat, n: nat): seq<Beat>
    requires from <= n
    decreases n - from
  {
    if n == from then beats else Emitting(beats, from, n - 1) + [Emit(0, KindAt(n - 1))]
  }

  // ---------------------------------------------------------------- playing it through

  lemma Played(task: TaskId, beats: seq<Beat>, w: World, beat: Beat, w': World)
    requires Reaches(task, 0, beats, w) && w.base <= |w.log| && w' == Play(task, 0, w, beat)
    ensures Reaches(task, 0, beats + [beat], w')
  {
    ReachesNext(task, 0, beats, beat, w);
  }

  ghost function Handed(w: World, n: nat): World
    requires n <= |w.stream.pending|
  {
    var pending := w.stream.pending;
    w.(stream := Stream(if n == 0 then w.stream.lastSeq else pending[n - 1].seqNo, pending[n..], false),
       delivered := w.delivered + pending[..n])
  }

  /** Handing out n of the events queued for delivery. */
  lemma {:induction false} HandsOut(task: TaskId, beats: seq<Beat>, w: World, n: nat)
    requires Reaches(task, 0, beats, w) && w.base <= |w.log| && w.pc.Idle? && !w.stream.terminal
    requires n <= |w.stream.pending| && forall i | 0 <= i < n :: !w.stream.pending[i].kind.Terminal()
    ensures Reaches(task, 0, Calling(beats, n), Handed(w, n))
  {
    if n == 0 {
      HandedNone(w);
    } else {
      HandsOut(task, beats, w, n - 1);
      HandsOne(task, Calling(beats, n - 1), w, n);
    }
  }

  lemma HandsOne(task: TaskId, beats: seq<Beat>, w: World, n: nat)
    requires w.base <= |w.log| && w.pc.Idle? && !w.stream.terminal && 0 < n <= |w.stream.pending|
    requires !w.stream.pending[n - 1].kind.Terminal() && Reaches(task, 0, beats, Handed(w, n - 1))
    ensures Reaches(task, 0, beats + [Call], Handed(w, n))
  {
    HandedNext(w, n);
    Played(task, beats, Handed(w, n - 1), Call, Handed(w, n));
  }

  lemma HandedNone(w: World)
    requires !w.stream.terminal
    ensures Handed(w, 0) == w
  {
    assert w.stream.pending[0..] == w.stream.pending && w.delivered + [] == w.delivered;
  }

  lemma HandedNext(w: World, n: nat)
    requires w.base <= |w.log| && w.pc.Idle? && !w.stream.terminal && 0 < n <= |w.stream.pending|
    requires !w.stream.pending[n - 1].kind.Terminal()
    ensures PollStep(0, Handed(w, n - 1)) == Handed(w, n)
  {
    var pending := w.stream.pending;
    assert pending[n - 1..][0] == pending[n - 1] && pending[n - 1..][1..] == pending[n..];
    assert w.delivered + pending[..n - 1] + [pending[n - 1]] == w.delivered + pending[..n];
  }

  /** A world of the running task in which the first page waits for delivery. */
  ghost function FirstPage(task: TaskId, n: nat, queue: seq<CoreEvent>): World
    requires n >= PAGE
  {
    World(Steady(task, n), 0, queue, false, false, Stream(0, Steady(task, n)[..PAGE], false), Idle, [], None)
  }

  ghost function PageDone(task: TaskId, n: nat, queue: seq<CoreEvent>): World
    requires n >= PAGE
  {
    World(Steady(task, n), 0, queue, false, false, Stream(PAGE, [], false), Idle, Steady(task, n)[..PAGE], None)
  }

  lemma PageIsRead(task: TaskId, beats: seq<Beat>, n: nat, queue: seq<CoreEvent>)
    requires n >= PAGE && Reaches(task, 0, beats, FirstPage(task, n, queue))
    ensures Reaches(task, 0, Calling(beats, PAGE), PageDone(task, n, queue))
  {
    var page := Steady(task, n)[..PAGE];
    HandsOut(task, beats, FirstPage(task, n, queue), PAGE);
    assert page[PAGE..] == [] && page[..PAGE] == page && [] + page == page;
    assert Handed(FirstPage(task, n, queue), PAGE) == PageDone(task, n, queue);
  }

  // ---------------------------------------------------------------- subscribing behind a backlog

  ghost function Backlog(task: TaskId, n: nat, pc: Pc): World {
    World(Steady(task, n), 0, [], false, false, Stream(0, [], false), pc, [], None)
  }

  lemma BacklogNext(task: TaskId, n: nat)
    requires n > 0
    ensures Play(task, 0, Backlog(task, n - 1, Start), Emit(0, KindAt(n - 1))) == Backlog(task, n, Start)
  {
  }

  lemma {:induction false} EmitsUnheard(task: TaskId, n: nat)
    ensures Reaches(task, 0, Emitting([], 0, n), Backlog(task, n, Start))
  {
    if n > 0 {
      EmitsUnheard(task, n - 1);
      BacklogNext(task, n);
      Played(task, Emitting([], 0, n - 1), Backlog(task, n - 1, Start), Emit(0, KindAt(n - 1)),
             Backlog(task, n, Start));
    }
  }

  lemma FirstPageOf(task: TaskId, n: nat)
    requires n >= PAGE
    ensures HistoryPage(Backlog(task, n, Start), 0) == Steady(task, n)[..PAGE]
  {
    PageIsSlice(Backlog(task, n, Start), 0);
    assert Steady(task, n)[0..PAGE] == Steady(task, n)[..PAGE];
  }

  /** A reader has read the history of a backlog of n events, but not opened its receiver. */
  lemma BacklogIsRead(task: TaskId, n: nat)
    requires n >= PAGE
    ensures Reaches(task, 0, Emitting([], 0, n) + [Call], Backlog(task, n, Opening(Steady(task, n)[..PAGE])))
  {
    EmitsUnheard(task, n);
    FirstPageOf(task, n);
    Played(task, Emitting([], 0, n), Backlog(task, n, Start), Call, Backlog(task, n, Opening(Steady(task, n)[..PAGE])));
  }

  lemma BacklogIsOpened(task: TaskId, n: nat)
    requires n >= PAGE
    ensures Reaches(task, 0, Emitting([], 0, n) + [Call] + [Call], FirstPage(task, n, []))
  {
    BacklogIsRead(task, n);
    AllBeyond(Steady(task, n)[..PAGE], 0);
    Played(task, Emitting([], 0, n) + [Call], Backlog(task, n, Opening(Steady(task, n)[..PAGE])), Call,
           FirstPage(task, n, []));
  }

  /** Of a backlog published before the subscription, everything beyond number 500 is in neither of its parts. */
  lemma BacklogIsMissed(task: TaskId, n: nat, k: nat)
    requires PAGE < k <= n
    ensures var w := Run(task, 0, Live(Emitting([], 0, n) + [Call] + [Call]));
            |w.log| == n && !Holds(w.stream.pending, k) && w.queue == []
  {
    BacklogIsOpened(task, n);
  }

  /** Having handed out the first 500, its reader waits: no number of calls alone delivers more. */
  lemma BacklogReadersStall(task: TaskId, n: nat, calls: nat)
    requires PAGE < n
    ensures var w := Run(task, 0, Polling(Live(Calling(Emitting([], 0, n) + [Call] + [Call], PAGE)), calls));
            |w.log| == n && |w.delivered| == PAGE && w.stream.lastSeq == PAGE
  {
    var beats := Calling(Emitting([], 0, n) + [Call] + [Call], PAGE);
    BacklogIsOpened(task, n);
    PageIsRead(task, Emitting([], 0, n) + [Call] + [Call], n, []);
    WaitingGetsNothing(task, 0, Live(beats), PageDone(task, n, []), calls);
  }

  /** The reader of a backlog of n events: it subscribes, one more event comes, and it goes on reading. */
  function LateBeats(n: nat, calls: nat): seq<Beat> {
    Calling(Emitting([], 0, n) + [Call] + [Call] + [Emit(0, KindAt(n))], calls)
  }

  lemma BacklogIsOutOfTouch(task: TaskId, n: nat)
    requires n > 2 * PAGE
    ensures var w := Backlog(task, n, Opening(Steady(task, n)[..PAGE])); OutOfTouch(0, w) && Loss(0, w) == 2 * PAGE + 1
  {
  }

  lemma LateIsLost(task: TaskId, n: nat, more: seq<Action>)
    requires n > 2 * PAGE
    ensures !HasDelivered(Run(task, 0, Live(LateBeats(n, PAGE + 2)) + more), 2 * PAGE + 1)
  {
    BacklogIsRead(task, n);
    BacklogIsOutOfTouch(task, n);
    LateOpeningLosesANumber(task, 0, Emitting([], 0, n) + [Call], Emit(0, KindAt(n)), more, PAGE, 2 * PAGE + 1);
  }

  /**
   Every reader that subscribes from the start behind a backlog of more than 1000 events
   loses number 1001 for good, as soon as one more event is published: the history and the
   one read it makes end at 1000.
   */
  lemma LateReadersLoseAnEvent(task: TaskId, n: nat, more: seq<Action>)
    requires n > 1000
    ensures Legal(Kinds(Steady(task, n + 1)))
    ensures !HasDelivered(Run(task, 0, Live(LateBeats(n, 502)) + more), 1001)
  {
    SteadyIsLegal(task, n + 1);
    LateIsLost(task, n, more);
  }

  // ---------------------------------------------------------------- letting the channel overflow

  ghost function Unheard(task: TaskId, n: nat): World {
    World(Steady(task, n), 0, Last(Steady(task, n), CHANNEL), n > CHANNEL, false, Stream(0, [], false), Idle, [], None)
  }

  lemma LastGrows<T>(s: seq<T>, x: T, n: nat)
    requires n > 0
    ensures Last(s + [x], n) == if |s| < n then s + [x] else (Last(s, n) + [x])[1..]
  {
    if |s| >= n {
      assert Last(s + [x], n) == (Last(s, n) + [x])[1..];
    }
  }

  lemma UnheardNext(task: TaskId, n: nat)
    requires n > 0
    ensures Play(task, 0, Unheard(task, n - 1), Emit(0, KindAt(n - 1))) == Unheard(task, n)
  {
    var log, event := Steady(task, n - 1), EventAt(task, n - 1);
    LastGrows(log, event, CHANNEL);
  }

  lemma OpensEmpty(task: TaskId)
    ensures Reaches(task, 0, [] + [Call] + [Call], Unheard(task, 0))
  {
    var w := Backlog(task, 0, Start);
    assert Reaches(task, 0, [], w);
    Played(task, [], w, Call, w.(pc := Opening([])));
    Played(task, [] + [Call], w.(pc := Opening([])), Call, Unheard(task, 0));
  }

  lemma {:induction false} EmitsHeard(task: TaskId, n: nat)
    ensures Reaches(task, 0, Emitting([] + [Call] + [Call], 0, n), Unheard(task, n))
  {
    if n == 0 {
      OpensEmpty(task);
    } else {
      EmitsHeard(task, n - 1);
      UnheardNext(task, n);
      Played(task, Emitting([] + [Call] + [Call], 0, n - 1), Unheard(task, n - 1), Emit(0, KindAt(n - 1)),
             Unheard(task, n));
    }
  }

  lemma LagIsRead(task: TaskId, beats: seq<Beat>, n: nat)
    requires n >= PAGE && n > CHANNEL && Reaches(task, 0, beats, Unheard(task, n))
    ensures Reaches(task, 0, beats + [Call] + [Call], FirstPage(task, n, Last(Steady(task, n), CHANNEL)))
  {
    var w := Unheard(task, n);
    var w1 := w.(lagged := false, pc := CatchingUp(None, false));
    Played(task, beats, w, Call, w1);
    LagFindsPage(task, n);
    Played(task, beats + [Call], w1, Call, FirstPage(task, n, w.queue));
  }

  lemma LagFindsPage(task: TaskId, n: nat)
    requires n >= PAGE
    ensures var w := Unheard(task, n).(lagged := false, pc := CatchingUp(None, false));
            Play(task, 0, w, Call) == FirstPage(task, n, w.queue)
  {
    var w := Unheard(task, n).(lagged := false, pc := CatchingUp(None, false));
    PageIsSlice(w, 0);
    MergePage(w.log, 0);
    assert w.log[0..PAGE] == w.log[..PAGE];
  }

  /** A reader that waits through n events, hears of the lag, reads and hands out a page. */
  function SlowBeats(n: nat): seq<Beat> {
    Calling(Emitting([] + [Call] + [Call], 0, n) + [Call] + [Call], PAGE)
  }

  lemma SlowIsOutOfTouch(task: TaskId, n: nat)
    requires n > 2 * PAGE + CHANNEL
    ensures var w := PageDone(task, n, Last(Steady(task, n), CHANNEL));
            OutOfTouch(0, w) && Loss(0, w) == 2 * PAGE + 1 && |w.stream.pending| == 0 && !w.pc.Opening?
    ensures Reaches(task, 0, SlowBeats(n), PageDone(task, n, Last(Steady(task, n), CHANNEL)))
  {
    EmitsHeard(task, n);
    LagIsRead(task, Emitting([] + [Call] + [Call], 0, n), n);
    PageIsRead(task, Emitting([] + [Call] + [Call], 0, n) + [Call] + [Call], n, Last(Steady(task, n), CHANNEL));
  }

  lemma SlowIsLost(task: TaskId, n: nat, more: seq<Action>)
    requires n > 2 * PAGE + CHANNEL
    ensures !HasDelivered(Run(task, 0, Live(Calling(SlowBeats(n), 0 + 2)) + more), 2 * PAGE + 1)
  {
    SlowIsOutOfTouch(task, n);
    FullChannelLosesANumber(task, 0, SlowBeats(n), more, 0, 2 * PAGE + 1);
  }

  /**
   Every reader that lets more than 1256 events pass while its receiver is open loses
   number 1001 for good: it hears of the lag, reads 1 to 500, and the oldest event still
   in the channel is then out of reach.
   */
  lemma SlowReadersLoseAnEvent(task: TaskId, n: nat, more: seq<Action>)
    requires n > 1256
    ensures Legal(Kinds(Steady(task, n)))
    ensures !HasDelivered(Run(task, 0, Live(Calling(SlowBeats(n), 0 + 2)) + more), 1001)
  {
    SteadyIsLegal(task, n);
    SlowIsLost(task, n, more);
  }
}
