/**
 The stream in its environment: writers commit events to the durable log and publish
 them at any later time, in any order, or not at all; the channel holds 256 events for
 this receiver, drops the oldest beyond that and reports the lag; it may be closed;
 retention may cut the log from its start; a history read may fail. Subscribing reads
 the history first and opens the receiver in a later step. A schedule interleaves all of
 this with the single steps of `next`.
 */
module StreamWorld {
  import opened TaskModel
  import opened Lifecycle
  import opened ReliableStream
  import Store = MemoryStore

  const CHANNEL := 256

  datatype Pc =
    | Start
    | Opening(history: seq<CoreEvent>)
    | Idle
    | CatchingUp(trailing: Option<CoreEvent>, ended: bool)

  /** `delivered` and `sealed` are history: what `next` returned, and the log's length when it returned None. */
  datatype World = World(
    log: seq<CoreEvent>,
    base: nat,
    queue: seq<CoreEvent>,
    lagged: bool,
    closed: bool,
    stream: Stream,
    pc: Pc,
    delivered: seq<CoreEvent>,
    sealed: Option<nat>)

  function Initial(after: EventSeq): World {
    World([], 0, [], false, false, Stream(after, [], false), Start, [], None)
  }

  datatype Action =
    | Commit(at: Time, kind: EventKind)
    | Publish(number: nat)
    | Close
    | Trim(upTo: nat)
    | Poll
    | ReadFails

  function HistoryPage(w: World, from: EventSeq): seq<CoreEvent>
    requires w.base <= |w.log|
  {
    Store.Take(Store.SeqAfter(w.log[w.base..], from), PAGE)
  }

  function Send(w: World, event: CoreEvent): World {
    if w.closed || w.pc.Start? || w.pc.Opening? then w
    else if |w.queue| < CHANNEL then w.(queue := w.queue + [event])
    else w.(queue := (w.queue + [event])[1..], lagged := true)
  }

  ghost function Give(w: World, event: CoreEvent, rest: seq<CoreEvent>): World {
    w.(stream := Delivered(w.stream, event).(pending := rest), delivered := w.delivered + [event])
  }

  ghost function Hear(w: World, recv: Recv): World {
    match React(w.stream.lastSeq, recv)
    case Drop => w
    case DeliverNow(event) => Give(w, event, w.stream.pending)
    case Reread(trailing, ended) => w.(pc := CatchingUp(trailing, ended))
  }

  ghost function PollStep(after: EventSeq, w: World): World
    requires w.base <= |w.log|
  {
    match w.pc
    case Start => w.(pc := Opening(HistoryPage(w, after)))
    case Opening(history) =>
      w.(pc := Idle, queue := [], lagged := false, stream := Stream(after, Beyond(history, after), false))
    case CatchingUp(trailing, ended) =>
      var s := Refilled(w.stream, HistoryPage(w, w.stream.lastSeq), trailing);
      if ended && s.pending == []
      then w.(pc := Idle, stream := s.(terminal := true), sealed := Some(|w.log|))
      else w.(pc := Idle, stream := s)
    case Idle =>
      if w.stream.terminal then w
      else if w.stream.pending != [] then Give(w, w.stream.pending[0], w.stream.pending[1..])
      else if w.lagged then Hear(w.(lagged := false), Lagged)
      else if w.queue != [] then Hear(w.(queue := w.queue[1..]), Got(w.queue[0]))
      else if w.closed then Hear(w, Closed)
      else w
  }

  /** The history read under way fails: `next` returns the error and forgets the event that asked for the read. */
  function FailRead(w: World): World {
    if w.pc.CatchingUp? then w.(pc := Idle) else w
  }

  ghost function Step(task: TaskId, after: EventSeq, w: World, a: Action): (w': World)
    requires w.base <= |w.log|
    ensures w'.base <= |w'.log|
  {
    match a
    case Commit(at, kind) => w.(log := w.log + [CoreEvent(task, |w.log| + 1, at, kind)])
    case Publish(number) => if 1 <= number <= |w.log| then Send(w, w.log[number - 1]) else w
    case Close => w.(closed := true)
    case Trim(upTo) => if w.base < upTo <= |w.log| then w.(base := upTo) else w
    case Poll => PollStep(after, w)
    case ReadFails => FailRead(w)
  }

  ghost function Run(task: TaskId, after: EventSeq, schedule: seq<Action>): (w: World)
    ensures w.base <= |w.log|
  {
    if schedule == [] then Initial(after)
    else Step(task, after, Run(task, after, schedule[..|schedule| - 1]), schedule[|schedule| - 1])
  }

  // ---------------------------------------------------------------- the invariant

  /** What has been delivered is the log from `after` on, without gap or repetition. */
  ghost predicate Exact(after: EventSeq, w: World) {
    || (w.delivered == [] && w.stream.lastSeq == after)
    || (after <= w.stream.lastSeq <= |w.log| && w.delivered == w.log[after..w.stream.lastSeq])
  }

  ghost predicate Ready(log: seq<CoreEvent>, lo: nat, pending: seq<CoreEvent>) {
    pending == [] || Continues(log, lo, pending)
  }

  ghost predicate Queued(w: World) {
    forall i | 0 <= i < |w.queue| :: InLog(w.queue[i], w.log)
  }

  ghost predicate PcOk(after: EventSeq, w: World) {
    match w.pc
    case Start => w.delivered == [] && w.stream == Stream(after, [], false)
    case Opening(history) => w.delivered == [] && w.stream == Stream(after, [], false) && Ready(w.log, after, history)
    case Idle => true
    case CatchingUp(trailing, ended) =>
      && w.stream.pending == [] && !w.stream.terminal
      && (ended ==> trailing.None?)
      && (trailing.Some? ==> InLog(trailing.value, w.log) && w.stream.lastSeq < trailing.value.seqNo)
  }

  /** An ended stream has delivered a terminal event or had nothing left to read. */
  ghost predicate EndOk(w: World) {
    w.stream.terminal ==>
      || (w.delivered != [] && w.delivered[|w.delivered| - 1].kind.Terminal())
      || (w.sealed.Some? && w.sealed.value <= w.stream.lastSeq)
  }

  ghost predicate Good(after: EventSeq, w: World) {
    && Store.Numbered(w.log, 0)
    && Exact(after, w)
    && Ready(w.log, w.stream.lastSeq, w.stream.pending)
    && Queued(w)
    && PcOk(after, w)
    && EndOk(w)
  }

  /** The gap event about to be merged is within reach of one page. */
  ghost predicate Near(w: World) {
    w.pc.CatchingUp? && w.pc.trailing.Some? ==> w.pc.trailing.value.seqNo <= w.stream.lastSeq + PAGE + 1
  }

  /** Retention has not reached what the next history read is to return. */
  ghost predicate Covered(after: EventSeq, w: World) {
    && (w.pc.Start? ==> w.base <= after)
    && (w.pc.CatchingUp? ==> w.base <= w.stream.lastSeq)
  }

  lemma TailFrom(log: seq<CoreEvent>, base: nat, lo: nat)
    requires Store.Numbered(log, 0) && base <= |log| && base <= lo
    ensures Store.SeqAfter(log[base..], lo) == if lo <= |log| then log[lo..] else []
  {
    Store.SeqAfterIsSlice(log[base..], base, lo);
    if base <= lo <= |log| {
      assert log[base..][lo - base..] == log[lo..];
    }
  }

  lemma FirstPage(log: seq<CoreEvent>, lo: nat)
    requires lo <= |log|
    ensures Store.Take(log[lo..], PAGE) == log[lo..PageEnd(log, lo)]
  {
    if PAGE < |log[lo..]| {
      assert log[lo..][..PAGE] == log[lo..lo + PAGE];
    } else {
      assert log[lo..] == log[lo..|log|];
    }
  }

  lemma PageIsSlice(w: World, lo: nat)
    requires Store.Numbered(w.log, 0) && w.base <= |w.log| && w.base <= lo
    ensures HistoryPage(w, lo) == if lo <= |w.log| then w.log[lo..PageEnd(w.log, lo)] else []
  {
    TailFrom(w.log, w.base, lo);
    if lo <= |w.log| {
      FirstPage(w.log, lo);
    }
  }

  lemma MergeNothing(lo: nat)
    ensures Merged(lo, [], None) == []
  {
  }

  lemma CatchUpIsReady(w: World, trailing: Option<CoreEvent>)
    requires Store.Numbered(w.log, 0) && w.base <= |w.log| && w.base <= w.stream.lastSeq
    requires trailing.Some? ==>
               && InLog(trailing.value, w.log) && w.stream.lastSeq < trailing.value.seqNo
               && trailing.value.seqNo <= w.stream.lastSeq + PAGE + 1
    ensures Ready(w.log, w.stream.lastSeq, Merged(w.stream.lastSeq, HistoryPage(w, w.stream.lastSeq), trailing))
    ensures trailing.None? && Merged(w.stream.lastSeq, HistoryPage(w, w.stream.lastSeq), trailing) == [] ==>
              |w.log| <= w.stream.lastSeq
  {
    var lo := w.stream.lastSeq;
    PageIsSlice(w, lo);
    if lo > |w.log| {
      MergeNothing(lo);
    } else if trailing.None? {
      MergePage(w.log, lo);
    } else {
      MergeIsContiguousWithin501(w.log, lo, trailing.value);
    }
  }

  // ---------------------------------------------------------------- steps

  lemma NothingDelivered(after: EventSeq, w: World)
    requires Exact(after, w) && w.delivered == []
    ensures w.stream.lastSeq == after
  {
    if after <= w.stream.lastSeq <= |w.log| {
      assert |w.log[after..w.stream.lastSeq]| == w.stream.lastSeq - after;
    }
  }

  lemma GiveIsGood(after: EventSeq, w: World, event: CoreEvent, rest: seq<CoreEvent>)
    requires Good(after, w) && w.pc.Idle? && !w.stream.terminal
    requires InLog(event, w.log) && event.seqNo == w.stream.lastSeq + 1
    requires Ready(w.log, event.seqNo, rest)
    ensures Good(after, Give(w, event, rest))
  {
    var n := w.stream.lastSeq;
    if w.delivered == [] {
      NothingDelivered(after, w);
      assert w.log[after..n + 1] == [event];
    } else {
      assert w.log[after..n + 1] == w.log[after..n] + [event];
    }
  }

  lemma ReadyTail(log: seq<CoreEvent>, lo: nat, pending: seq<CoreEvent>)
    requires Store.Numbered(log, 0) && pending != [] && Ready(log, lo, pending)
    ensures InLog(pending[0], log) && pending[0].seqNo == lo + 1
    ensures Ready(log, lo + 1, pending[1..])
  {
    assert pending[0] == log[lo];
    assert pending[1..] == log[lo + 1..lo + |pending|];
  }

  lemma HearIsGood(after: EventSeq, w: World, recv: Recv)
    requires Good(after, w) && w.pc.Idle? && w.stream.pending == [] && !w.stream.terminal
    requires recv.Got? ==> InLog(recv.event, w.log)
    ensures Good(after, Hear(w, recv))
  {
    if recv.Got? && recv.event.seqNo == w.stream.lastSeq + 1 {
      GiveIsGood(after, w, recv.event, w.stream.pending);
    }
  }

  lemma CatchUpIsGood(after: EventSeq, w: World)
    requires Good(after, w) && Near(w) && Covered(after, w) && w.base <= |w.log| && w.pc.CatchingUp?
    ensures Good(after, PollStep(after, w))
  {
    CatchUpIsReady(w, w.pc.trailing);
  }

  lemma OpenIsGood(after: EventSeq, w: World)
    requires Good(after, w) && Covered(after, w) && w.base <= |w.log| && (w.pc.Start? || w.pc.Opening?)
    ensures Good(after, PollStep(after, w))
  {
    if w.pc.Start? {
      PageIsSlice(w, after);
    } else {
      Store.SeqAfterIsSlice(w.pc.history, after, after);
    }
  }

  lemma PollIsGood(after: EventSeq, w: World)
    requires Good(after, w) && Near(w) && Covered(after, w) && w.base <= |w.log|
    ensures Good(after, PollStep(after, w))
  {
    match w.pc
    case Start => OpenIsGood(after, w);
    case Opening(_) => OpenIsGood(after, w);
    case CatchingUp(_, _) => CatchUpIsGood(after, w);
    case Idle =>
      if !w.stream.terminal {
        if w.stream.pending != [] {
          ReadyTail(w.log, w.stream.lastSeq, w.stream.pending);
          GiveIsGood(after, w, w.stream.pending[0], w.stream.pending[1..]);
        } else if w.lagged {
          HearIsGood(after, w.(lagged := false), Lagged);
        } else if w.queue != [] {
          HearIsGood(after, w.(queue := w.queue[1..]), Got(w.queue[0]));
        } else if w.closed {
          HearIsGood(after, w, Closed);
        }
      }
  }

  lemma CommitIsGood(task: TaskId, after: EventSeq, w: World, a: Action)
    requires Good(after, w) && w.base <= |w.log| && a.Commit?
    ensures Good(after, Step(task, after, w, a))
  {
    var w' := Step(task, after, w, a);
    assert w.log <= w'.log;
    ReadyGrows(w.log, w'.log, w.stream.lastSeq, w.stream.pending);
    if w.pc.Opening? {
      ReadyGrows(w.log, w'.log, after, w.pc.history);
    }
    if w.delivered != [] {
      assert w'.log[after..w.stream.lastSeq] == w.log[after..w.stream.lastSeq];
    }
  }

  lemma ReadyGrows(log: seq<CoreEvent>, log': seq<CoreEvent>, lo: nat, pending: seq<CoreEvent>)
    requires log <= log' && Ready(log, lo, pending)
    ensures Ready(log', lo, pending)
  {
    if pending != [] {
      assert log'[lo..lo + |pending|] == log[lo..lo + |pending|];
    }
  }

  lemma StepIsGood(task: TaskId, after: EventSeq, w: World, a: Action)
    requires Good(after, w) && w.base <= |w.log|
    requires a.Poll? ==> Near(w) && Covered(after, w)
    ensures Good(after, Step(task, after, w, a))
  {
    match a
    case Commit(_, _) => CommitIsGood(task, after, w, a);
    case Publish(number) =>
      if 1 <= number <= |w.log| {
        SendIsGood(after, w, w.log[number - 1]);
      }
    case Close =>
    case Trim(_) =>
    case Poll => PollIsGood(after, w);
    case ReadFails =>
  }

  lemma SendIsGood(after: EventSeq, w: World, event: CoreEvent)
    requires Good(after, w) && InLog(event, w.log)
    ensures Good(after, Send(w, event))
  {
  }

  // ---------------------------------------------------------------- exactness over whole runs

  /** No read along the run is asked for by a gap event out of reach, or comes too late for retention. */
  ghost predicate Tame(task: TaskId, after: EventSeq, schedule: seq<Action>) {
    forall k | 0 <= k < |schedule| && schedule[k].Poll? ::
      Near(Run(task, after, schedule[..k])) && Covered(after, Run(task, after, schedule[..k]))
  }

  lemma TamePrefix(task: TaskId, after: EventSeq, schedule: seq<Action>, n: nat)
    requires Tame(task, after, schedule) && n <= |schedule|
    ensures Tame(task, after, schedule[..n])
  {
    forall k | 0 <= k < n && schedule[..n][k].Poll?
      ensures Near(Run(task, after, schedule[..n][..k])) && Covered(after, Run(task, after, schedule[..n][..k]))
    {
      assert schedule[..n][..k] == schedule[..k];
    }
  }

  lemma TameSnoc(task: TaskId, after: EventSeq, schedule: seq<Action>)
    requires schedule != []
    requires var n := |schedule| - 1;
             && Tame(task, after, schedule[..n])
             && (schedule[n].Poll? ==>
                   Near(Run(task, after, schedule[..n])) && Covered(after, Run(task, after, schedule[..n])))
    ensures Tame(task, after, schedule)
  {
    var n := |schedule| - 1;
    forall k | 0 <= k < |schedule| && schedule[k].Poll?
      ensures Near(Run(task, after, schedule[..k])) && Covered(after, Run(task, after, schedule[..k]))
    {
      if k < n {
        assert schedule[..n][k] == schedule[k] && schedule[..n][..k] == schedule[..k];
      }
    }
  }

  /**
   For every schedule of commits, late, lost or reordered publishes, lag, close, failing
   reads, retention and `next` calls, the delivered events are exactly the log from `after + 1` to the last
   delivered number, in order.
   */
  lemma {:induction false} EveryTameRunIsGood(task: TaskId, after: EventSeq, schedule: seq<Action>)
    requires Tame(task, after, schedule)
    ensures Good(after, Run(task, after, schedule))
  {
    if schedule != [] {
      var n := |schedule| - 1;
      TamePrefix(task, after, schedule, n);
      EveryTameRunIsGood(task, after, schedule[..n]);
      assert schedule[n].Poll? ==> Near(Run(task, after, schedule[..n]));
      StepIsGood(task, after, Run(task, after, schedule[..n]), schedule[n]);
    }
  }

  ghost predicate Grows(w: World, w': World) {
    w.log <= w'.log && w.base <= w'.base
  }

  lemma StepGrows(task: TaskId, after: EventSeq, w: World, a: Action)
    requires w.base <= |w.log|
    ensures Grows(w, Step(task, after, w, a))
  {
  }

  lemma {:induction false} RunGrows(task: TaskId, after: EventSeq, schedule: seq<Action>, n: nat)
    requires n <= |schedule|
    ensures Grows(Run(task, after, schedule[..n]), Run(task, after, schedule))
    decreases |schedule|
  {
    if n == |schedule| {
      assert schedule[..n] == schedule;
    } else {
      var m := |schedule| - 1;
      RunGrows(task, after, schedule[..m], n);
      assert schedule[..m][..n] == schedule[..n];
      StepGrows(task, after, Run(task, after, schedule[..m]), schedule[m]);
    }
  }

  /** When a gap event asks for a read, the reader is at most 501 events behind. */
  ghost predicate KeepsUp(w: World) {
    w.pc.CatchingUp? && w.pc.trailing.Some? ==> |w.log| <= w.stream.lastSeq + PAGE + 1
  }

  /**
   A condition on the reader alone: whatever the publishers do, a reader that is at most
   501 events behind whenever a gap event makes it read the log stays exact.
   */
  lemma {:induction false} KeepingUpIsTame(task: TaskId, after: EventSeq, schedule: seq<Action>)
    requires forall k | 0 <= k < |schedule| && schedule[k].Poll? ::
               KeepsUp(Run(task, after, schedule[..k])) && Covered(after, Run(task, after, schedule[..k]))
    ensures Tame(task, after, schedule) && Good(after, Run(task, after, schedule))
    decreases |schedule|
  {
    if schedule != [] {
      var n := |schedule| - 1;
      forall k | 0 <= k < n && schedule[..n][k].Poll?
        ensures KeepsUp(Run(task, after, schedule[..n][..k])) && Covered(after, Run(task, after, schedule[..n][..k]))
      {
        assert schedule[..n][..k] == schedule[..k];
      }
      KeepingUpIsTame(task, after, schedule[..n]);
      var w := Run(task, after, schedule[..n]);
      assert schedule[n].Poll? ==> KeepsUp(w);
      assert Near(w) || !schedule[n].Poll?;
      TameSnoc(task, after, schedule);
      StepIsGood(task, after, w, schedule[n]);
    }
  }

  // ---------------------------------------------------------------- the end of the stream

  /**
   Delivering a terminal event means nothing was left out: on a log the lifecycle allows
   a terminal event is the last one, so everything after `after` has been delivered.
   */
  lemma TerminalMeansComplete(task: TaskId, after: EventSeq, schedule: seq<Action>)
    requires Tame(task, after, schedule)
    requires var w := Run(task, after, schedule);
             && Legal(Kinds(w.log))
             && w.delivered != [] && w.delivered[|w.delivered| - 1].kind.Terminal()
    ensures var w := Run(task, after, schedule); after <= |w.log| && w.delivered == w.log[after..]
  {
    EveryTameRunIsGood(task, after, schedule);
    EndedIsAll(after, Run(task, after, schedule));
  }

  lemma EndedIsAll(after: EventSeq, w: World)
    requires Exact(after, w) && Legal(Kinds(w.log))
    requires w.delivered != [] && w.delivered[|w.delivered| - 1].kind.Terminal()
    ensures after <= |w.log| && w.delivered == w.log[after..]
  {
    var n := w.stream.lastSeq;
    assert w.delivered[|w.delivered| - 1] == w.log[n - 1];
    TerminalEventIsLast(Kinds(w.log), n - 1);
  }

  /**
   When `next` answers None, a terminal event has been delivered, or the read it made
   last found nothing beyond what had been delivered.
   */
  lemma NoneMeansDrained(task: TaskId, after: EventSeq, schedule: seq<Action>)
    requires Tame(task, after, schedule) && Run(task, after, schedule).stream.terminal
    ensures var w := Run(task, after, schedule);
            || (w.delivered != [] && w.delivered[|w.delivered| - 1].kind.Terminal())
            || (w.sealed.Some? && w.sealed.value <= w.stream.lastSeq)
  {
    EveryTameRunIsGood(task, after, schedule);
  }
}
