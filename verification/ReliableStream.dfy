/**
 `ReliableTaskStream` (crates/adapter-core/src/reliable_stream.rs): one ordered stream
 of a task's events made from a lossy live channel and a paged durable log. The object
 keeps the last delivered number, a queue of events ready for delivery and whether it
 has ended; the functions on `Stream` say what each of its methods does to that.
 */
module ReliableStream {
  import opened OrderedMaps
  import opened TaskModel
  import Store = MemoryStore

  /** How many events one history read returns at most. */
  const PAGE := 500

  datatype Stream = Stream(lastSeq: EventSeq, pending: seq<CoreEvent>, terminal: bool)

  datatype Recv = Got(event: CoreEvent) | Lagged | Closed

  /** What `next` does with one answer of the live channel. */
  datatype Reaction = Drop | DeliverNow(event: CoreEvent) | Reread(trailing: Option<CoreEvent>, ended: bool)

  function React(lastSeq: EventSeq, recv: Recv): Reaction {
    match recv
    case Got(event) =>
      if event.seqNo <= lastSeq then Drop
      else if event.seqNo == lastSeq + 1 then DeliverNow(event)
      else Reread(Some(event), false)
    case Lagged => Reread(None, false)
    case Closed => Reread(None, true)
  }

  function Delivered(s: Stream, event: CoreEvent): Stream {
    s.(lastSeq := event.seqNo, terminal := s.terminal || event.kind.Terminal())
  }

  // ---------------------------------------------------------------- merging a page

  /** The ordered map `catch_up` fills: events beyond `lastSeq`, by number, the last one of a number winning. */
  function Collected(lastSeq: EventSeq, page: seq<CoreEvent>): map<EventSeq, CoreEvent> {
    if page == [] then map[]
    else
      var n := |page| - 1;
      var before := Collected(lastSeq, page[..n]);
      if page[n].seqNo > lastSeq then before[page[n].seqNo := page[n]] else before
  }

  function WithTrailing(m: map<EventSeq, CoreEvent>, lastSeq: EventSeq, trailing: Option<CoreEvent>)
    : map<EventSeq, CoreEvent>
  {
    if trailing.Some? && trailing.value.seqNo > lastSeq && trailing.value.seqNo !in m
    then m[trailing.value.seqNo := trailing.value] else m
  }

  ghost function Merged(lastSeq: EventSeq, page: seq<CoreEvent>, trailing: Option<CoreEvent>): seq<CoreEvent> {
    var m := WithTrailing(Collected(lastSeq, page), lastSeq, trailing);
    Ascending(m, m.Keys)
  }

  ghost function Refilled(s: Stream, page: seq<CoreEvent>, trailing: Option<CoreEvent>): Stream {
    s.(pending := Merged(s.lastSeq, page, trailing))
  }

  // ---------------------------------------------------------------- one call of `next`

  /** One awaited answer of the channel and the page a history read would then return, unless it fails. */
  datatype Turn = Turn(recv: Recv, page: Option<seq<CoreEvent>>)

  datatype Reply = Event(event: CoreEvent) | Ended | Waiting | ReadError

  /** What `next` returns, and the stream it leaves, when the channel answers as in `turns`. */
  ghost function NextOn(s: Stream, turns: seq<Turn>): (Stream, Reply)
    decreases |turns|
  {
    if s.terminal then (s, Ended)
    else if s.pending != [] then (Delivered(s, s.pending[0]).(pending := s.pending[1..]), Event(s.pending[0]))
    else if turns == [] then (s, Waiting)
    else
      match React(s.lastSeq, turns[0].recv)
      case Drop => NextOn(s, turns[1..])
      case DeliverNow(event) => (Delivered(s, event), Event(event))
      case Reread(trailing, ended) =>
        if turns[0].page.None? then (s, ReadError)
        else
          var s' := Refilled(s, turns[0].page.value, trailing);
          if ended && s'.pending == [] then (s'.(terminal := true), Ended) else NextOn(s', turns[1..])
  }

  /** The three kinds of event a task ends with. */
  predicate EndsTask(kind: EventKind) {
    kind.CompletedEvent? || kind.FailedEvent? || kind.CancelledEvent?
  }

  /**
   When a call ends the stream, exactly: when it replies that it has ended, or hands out an
   event that ends the task, over the channel or from a page alike. An ended stream replies
   so at once, whatever the channel would answer, and stays as it is.
   */
  lemma {:induction false} NextEndsExactly(s: Stream, turns: seq<Turn>)
    ensures var s', reply := NextOn(s, turns).0, NextOn(s, turns).1;
            s'.terminal <==> reply.Ended? || (reply.Event? && EndsTask(reply.event.kind))
    ensures s.terminal ==> NextOn(s, turns) == (s, Ended)
    decreases |turns|
  {
    if !s.terminal && s.pending == [] && turns != [] {
      match React(s.lastSeq, turns[0].recv)
      case Drop => NextEndsExactly(s, turns[1..]);
      case DeliverNow(_) =>
      case Reread(trailing, ended) =>
        if turns[0].page.Some? {
          NextEndsExactly(Refilled(s, turns[0].page.value, trailing), turns[1..]);
        }
    }
  }

  function Beyond(history: seq<CoreEvent>, after: EventSeq): seq<CoreEvent> {
    Store.SeqAfter(history, after)
  }

  /** The places of the events numbered above `after`. */
  function Places(history: seq<CoreEvent>, after: EventSeq): (places: seq<nat>)
    ensures forall i | 0 <= i < |places| :: places[i] < |history| && history[places[i]].seqNo > after
    ensures forall i, j | 0 <= i < j < |places| :: places[i] < places[j]
    ensures forall k | 0 <= k < |history| && history[k].seqNo > after :: k in places
  {
    if history == [] then []
    else
      var n := |history| - 1;
      Places(history[..n], after) + if history[n].seqNo > after then [n] else []
  }

  ghost predicate Picked(history: seq<CoreEvent>, places: seq<nat>, queue: seq<CoreEvent>) {
    |queue| == |places| && forall i | 0 <= i < |queue| :: places[i] < |history| && queue[i] == history[places[i]]
  }

  lemma PickedGrows(history: seq<CoreEvent>, event: CoreEvent, places: seq<nat>, queue: seq<CoreEvent>)
    requires Picked(history, places, queue)
    ensures Picked(history + [event], places, queue)
    ensures Picked(history + [event], places + [|history|], queue + [event])
  {
  }

  /** What a new stream queues: the events of the history numbered above `after`, each once and in their order. */
  lemma {:induction false} QueueIsTheHistoryBeyond(history: seq<CoreEvent>, after: EventSeq)
    ensures Picked(history, Places(history, after), Beyond(history, after))
  {
    if history != [] {
      var n := |history| - 1;
      QueueIsTheHistoryBeyond(history[..n], after);
      var places, queue := Places(history[..n], after), Beyond(history[..n], after);
      assert history == history[..n] + [history[n]];
      BeyondSnoc(history[..n], history[n], after);
      PickedGrows(history[..n], history[n], places, queue);
      if history[n].seqNo > after {
        assert Places(history, after) == places + [n] && Beyond(history, after) == queue + [history[n]];
      } else {
        assert Places(history, after) == places && Beyond(history, after) == queue;
      }
    }
  }

  lemma {:induction false} BeyondSnoc(history: seq<CoreEvent>, event: CoreEvent, after: EventSeq)
    ensures Beyond(history + [event], after) == Beyond(history, after) + if event.seqNo > after then [event] else []
  {
    if history == [] {
      assert history + [event] == [event];
    } else {
      BeyondSnoc(history[1..], event, after);
      assert (history + [event])[1..] == history[1..] + [event];
    }
  }

  class ReliableTaskStream {
    var lastSeq: EventSeq
    var pending: seq<CoreEvent>
    var terminal: bool

    ghost function View(): Stream
      reads this
    {
      Stream(lastSeq, pending, terminal)
    }

    constructor (after: EventSeq, history: seq<CoreEvent>)
      ensures View() == Stream(after, Beyond(history, after), false)
    {
      lastSeq, pending, terminal := after, Beyond(history, after), false;
    }

    method Deliver(event: CoreEvent) returns (r: CoreEvent)
      modifies this`lastSeq, this`terminal
      ensures r == event && View() == Delivered(old(View()), event)
    {
      lastSeq := event.seqNo;
      if event.kind.Terminal() {
        terminal := true;
      }
      r := event;
    }

    method CatchUp(page: seq<CoreEvent>, trailing: Option<CoreEvent>)
      modifies this`pending
      ensures View() == Refilled(old(View()), page, trailing)
    {
      var merged: map<EventSeq, CoreEvent> := map[];
      for i := 0 to |page|
        invariant merged == Collected(lastSeq, page[..i])
      {
        assert page[..i + 1][..i] == page[..i];
        if page[i].seqNo > lastSeq {
          merged := merged[page[i].seqNo := page[i]];
        }
      }
      assert page[..|page|] == page;
      if trailing.Some? && trailing.value.seqNo > lastSeq && trailing.value.seqNo !in merged {
        merged := merged[trailing.value.seqNo := trailing.value];
      }
      pending := IntoValues(merged);
    }

    method Next(turns: seq<Turn>) returns (reply: Reply)
      modifies this
      ensures (View(), reply) == NextOn(old(View()), turns)
      ensures terminal <==> reply.Ended? || (reply.Event? && EndsTask(reply.event.kind))
      ensures old(terminal) ==> reply.Ended? && View() == old(View())
    {
      ghost var goal := NextOn(View(), turns);
      NextEndsExactly(View(), turns);
      var i := 0;
      assert turns[0..] == turns;
      while true
        invariant 0 <= i <= |turns|
        invariant goal == NextOn(View(), turns[i..])
        decreases |turns| - i
      {
        if terminal {
          return Ended;
        }
        if pending != [] {
          var event := pending[0];
          pending := pending[1..];
          var delivered := Deliver(event);
          return Event(delivered);
        }
        if i == |turns| {
          return Waiting;
        }
        var turn := turns[i];
        assert turns[i..][1..] == turns[i + 1..];
        i := i + 1;
        match React(lastSeq, turn.recv)
        case Drop =>
        case DeliverNow(event) =>
          var delivered := Deliver(event);
          return Event(delivered);
        case Reread(trailing, ended) =>
          if turn.page.None? {
            return ReadError;
          }
          CatchUp(turn.page.value, trailing);
          if ended && pending == [] {
            terminal := true;
            return Ended;
          }
      }
    }
  }

  // ---------------------------------------------------------------- merging on a gapless log

  lemma {:induction false} CollectedSlice(log: seq<CoreEvent>, lo: nat, hi: nat)
    requires Store.Numbered(log, 0) && lo <= hi <= |log|
    ensures Collected(lo, log[lo..hi]).Keys == Range(lo, hi)
    ensures forall k | lo < k <= hi :: Collected(lo, log[lo..hi])[k] == log[k - 1]
  {
    if lo < hi {
      CollectedSlice(log, lo, hi - 1);
      assert log[lo..hi][..hi - lo - 1] == log[lo..hi - 1];
      assert log[lo..hi][hi - lo - 1] == log[hi - 1];
      assert Collected(lo, log[lo..hi]) == Collected(lo, log[lo..hi - 1])[hi := log[hi - 1]];
    }
  }

  ghost predicate InLog(event: CoreEvent, log: seq<CoreEvent>) {
    1 <= event.seqNo <= |log| && event == log[event.seqNo - 1]
  }

  ghost function PageEnd(log: seq<CoreEvent>, lo: nat): nat
    requires lo <= |log|
  {
    Store.Min(lo + PAGE, |log|)
  }

  /** Without a trailing event, catching up queues the next page of the log. */
  lemma MergePage(log: seq<CoreEvent>, lo: nat)
    requires Store.Numbered(log, 0) && lo <= |log|
    ensures Merged(lo, log[lo..PageEnd(log, lo)], None) == log[lo..PageEnd(log, lo)]
  {
    var hi := PageEnd(log, lo);
    CollectedSlice(log, lo, hi);
    AscendingSlice(Collected(lo, log[lo..hi]), log, lo, hi, {});
    assert Range(lo, hi) + {} == Range(lo, hi);
  }

  /** A trailing event inside the page is a duplicate; beyond it, it is queued right behind the page. */
  lemma MergeTrailing(log: seq<CoreEvent>, lo: nat, event: CoreEvent)
    requires Store.Numbered(log, 0) && InLog(event, log) && lo < event.seqNo
    ensures var hi := PageEnd(log, lo);
            Merged(lo, log[lo..hi], Some(event)) ==
            if event.seqNo <= hi then log[lo..hi] else log[lo..hi] + [event]
  {
    var hi := PageEnd(log, lo);
    var m := Collected(lo, log[lo..hi]);
    CollectedSlice(log, lo, hi);
    if event.seqNo <= hi {
      AscendingSlice(m, log, lo, hi, {});
      assert Range(lo, hi) + {} == Range(lo, hi);
    } else {
      var m' := m[event.seqNo := event];
      assert m'.Keys == Range(lo, hi) + {event.seqNo};
      AscendingSlice(m', log, lo, hi, {event.seqNo});
      assert Least({event.seqNo}) == event.seqNo;
      assert {event.seqNo} - {event.seqNo} == {};
    }
  }

  /** `pending` continues the log where delivery stopped. */
  ghost predicate Continues(log: seq<CoreEvent>, lo: nat, pending: seq<CoreEvent>) {
    lo + |pending| <= |log| && pending == log[lo..lo + |pending|]
  }

  lemma FarEventBreaks(log: seq<CoreEvent>, lo: nat, hi: nat, event: CoreEvent)
    requires Store.Numbered(log, 0) && lo <= hi < |log| && event.seqNo != hi + 1
    ensures !Continues(log, lo, log[lo..hi] + [event])
  {
    var merged := log[lo..hi] + [event];
    assert merged[|merged| - 1] == event;
    assert log[lo..lo + |merged|][|merged| - 1] == log[hi];
  }

  lemma NextEventContinues(log: seq<CoreEvent>, lo: nat, hi: nat)
    requires lo <= hi < |log|
    ensures Continues(log, lo, log[lo..hi] + [log[hi]])
  {
    assert log[lo..hi] + [log[hi]] == log[lo..hi + 1];
  }

  /**
   The exact bound of one catch-up. Merging a gap event leaves the queue contiguous if
   and only if the event is at most 501 ahead of the last delivered one: within the
   page of 500, or directly behind it.
   */
  lemma MergeIsContiguousWithin501(log: seq<CoreEvent>, lo: nat, event: CoreEvent)
    requires Store.Numbered(log, 0) && InLog(event, log) && lo < event.seqNo
    ensures Continues(log, lo, Merged(lo, log[lo..PageEnd(log, lo)], Some(event))) <==>
            event.seqNo <= lo + 501
  {
    var hi := PageEnd(log, lo);
    MergeTrailing(log, lo, event);
    if event.seqNo == hi + 1 {
      NextEventContinues(log, lo, hi);
    } else if event.seqNo > hi {
      FarEventBreaks(log, lo, hi, event);
    }
  }
}
