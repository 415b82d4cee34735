/**
 Calling `next` over and over: a closed channel is drained to the end of the log, in
 whatever state it was closed, and a gap event out of reach costs the events before it
 for good.
 */
module StreamDrain {
  import opened TaskModel
  import opened ReliableStream
  import opened StreamWorld
  import Store = MemoryStore

  ghost function Polls(after: EventSeq, w: World, n: nat): (w': World)
    requires w.base <= |w.log|
    ensures w'.base <= |w'.log|
    decreases n
  {
    if n == 0 then w else Polls(after, PollStep(after, w), n - 1)
  }

  lemma PollsFirst(after: EventSeq, w: World, w': World, n: nat)
    requires w.base <= |w.log| && w' == PollStep(after, w)
    ensures w'.base <= |w'.log| && Polls(after, w, n + 1) == Polls(after, w', n)
  {
  }

  /** Nothing but possibly the last event of the list is terminal. */
  ghost predicate OnlyLastTerminal(events: seq<CoreEvent>) {
    forall i | 0 <= i < |events| - 1 :: !events[i].kind.Terminal()
  }

  // ---------------------------------------------------------------- draining

  function Rest(log: seq<CoreEvent>, after: EventSeq): seq<CoreEvent> {
    if after <= |log| then log[after..] else []
  }

  ghost predicate Drained(after: EventSeq, w: World) {
    w.stream.terminal && w.delivered == Rest(w.log, after)
  }

  /** The channel is closed and the stream has not ended; queue, lag and reads under way are arbitrary. */
  ghost predicate Draining(after: EventSeq, w: World) {
    && Good(after, w) && OnlyLastTerminal(w.log)
    && w.base <= |w.log| && w.base <= w.stream.lastSeq
    && w.closed && !w.stream.terminal && (w.pc.Idle? || w.pc.CatchingUp?)
  }

  /** What is left to deliver, to hear, and to do with what was heard. */
  function Left(w: World): nat {
    if w.stream.lastSeq <= |w.log| then |w.log| - w.stream.lastSeq else 0
  }

  function Unheard(w: World): nat {
    |w.queue| + (if w.lagged then 1 else 0) + (if w.pc.CatchingUp? && !w.pc.ended then 1 else 0)
  }

  function Phase(w: World): nat {
    if w.pc.CatchingUp? then 1 else if w.stream.pending == [] then 2 else 0
  }

  ghost predicate Closer(w': World, w: World) {
    || Left(w') < Left(w)
    || (Left(w') == Left(w) && Unheard(w') < Unheard(w))
    || (Left(w') == Left(w) && Unheard(w') == Unheard(w) && Phase(w') < Phase(w))
  }

  lemma CompleteIsRest(after: EventSeq, w: World)
    requires Exact(after, w) && |w.log| <= w.stream.lastSeq
    ensures w.delivered == Rest(w.log, after)
  {
    if after <= |w.log| && w.delivered != [] {
      assert w.log[after..|w.log|] == w.log[after..];
    }
  }

  /** Giving out the next event either ends the stream with the log or brings the end closer. */
  lemma GiveDrains(after: EventSeq, w: World, w': World, event: CoreEvent)
    requires Draining(after, w) && w.pc.Idle? && w'.pc.Idle?
    requires InLog(event, w.log) && event.seqNo == w.stream.lastSeq + 1
    requires Good(after, w') && w'.log == w.log && w'.stream.lastSeq == event.seqNo
    requires w'.stream.terminal == event.kind.Terminal() && w'.base == w.base && w'.closed
    ensures if w'.stream.terminal then Drained(after, w') else Draining(after, w') && Closer(w', w)
  {
    if w'.stream.terminal {
      assert event == w.log[event.seqNo - 1];
      CompleteIsRest(after, w');
    }
  }

  lemma RereadDrains(after: EventSeq, w: World)
    requires Draining(after, w) && Near(w) && w.pc.CatchingUp?
    ensures var w' := PollStep(after, w);
            if w'.stream.terminal then Drained(after, w') else Draining(after, w') && Closer(w', w)
  {
    var w' := PollStep(after, w);
    PollIsGood(after, w);
    CatchUpIsReady(w, w.pc.trailing);
    if w'.stream.terminal {
      CompleteIsRest(after, w');
    }
  }

  lemma HearDrains(after: EventSeq, w: World, heard: World, recv: Recv)
    requires Draining(after, w) && w.pc.Idle? && w.stream.pending == []
    requires recv.Got? ==> InLog(recv.event, w.log)
    requires heard == w.(queue := heard.queue, lagged := heard.lagged)
    requires Good(after, heard)
    requires if recv.Closed? then heard == w else Unheard(heard) + 1 == Unheard(w)
    ensures var w' := Hear(heard, recv);
            if w'.stream.terminal then Drained(after, w') else Draining(after, w') && Closer(w', w)
  {
    HearIsGood(after, heard, recv);
    if recv.Got? && recv.event.seqNo == w.stream.lastSeq + 1 {
      GiveDrains(after, w, Hear(heard, recv), recv.event);
    }
  }

  lemma DrainStep(after: EventSeq, w: World)
    requires Draining(after, w) && Near(w)
    ensures var w' := PollStep(after, w);
            && w'.log == w.log
            && if w'.stream.terminal then Drained(after, w') else Draining(after, w') && Closer(w', w)
  {
    if w.pc.CatchingUp? {
      RereadDrains(after, w);
    } else if w.stream.pending != [] {
      PollIsGood(after, w);
      ReadyTail(w.log, w.stream.lastSeq, w.stream.pending);
      GiveDrains(after, w, PollStep(after, w), w.stream.pending[0]);
    } else if w.lagged {
      HearDrains(after, w, w.(lagged := false), Lagged);
    } else if w.queue != [] {
      HearDrains(after, w, w.(queue := w.queue[1..]), Got(w.queue[0]));
    } else {
      HearDrains(after, w, w, Closed);
    }
  }

  ghost predicate NearThroughout(after: EventSeq, w: World)
    requires w.base <= |w.log|
  {
    forall k: nat :: Near(Polls(after, w, k))
  }

  /** One call further, seen from the call after it. */
  lemma DrainNext(after: EventSeq, w: World) returns (w': World)
    requires Draining(after, w) && NearThroughout(after, w)
    ensures w'.base <= |w'.log| && w'.log == w.log
    ensures forall n: nat :: Polls(after, w, n + 1) == Polls(after, w', n)
    ensures if w'.stream.terminal then Drained(after, w')
            else Draining(after, w') && Closer(w', w) && NearThroughout(after, w')
  {
    w' := PollStep(after, w);
    assert Near(Polls(after, w, 0));
    DrainStep(after, w);
    forall n: nat ensures Polls(after, w, n + 1) == Polls(after, w', n) {
      PollsFirst(after, w, w', n);
    }
    forall k: nat ensures Near(Polls(after, w', k)) {
      assert Polls(after, w, k + 1) == Polls(after, w', k);
    }
  }

  /**
   Once the channel is closed and nothing more is committed, calling `next` over and
   over delivers a log of any length to its end and then ends, whatever is still queued
   in the channel or under way, as long as no gap event met on the way is out of reach.
   */
  lemma {:induction false} DrainsToTheEnd(after: EventSeq, w: World) returns (n: nat)
    requires Draining(after, w) && NearThroughout(after, w)
    ensures Polls(after, w, n).log == w.log && Drained(after, Polls(after, w, n))
    decreases Left(w), Unheard(w), Phase(w)
  {
    var w' := DrainNext(after, w);
    var m := 0;
    if !w'.stream.terminal {
      m := DrainsToTheEnd(after, w');
    }
    assert Polls(after, w, m + 1) == Polls(after, w', m);
    n := m + 1;
  }

  // ---------------------------------------------------------------- handing out what was read

  /** The stream after handing out all of `pending`. */
  ghost function HandedOut(w: World): World
    requires w.stream.pending != []
  {
    var pending := w.stream.pending;
    var last := pending[|pending| - 1];
    w.(stream := Stream(last.seqNo, [], w.stream.terminal || last.kind.Terminal()),
       delivered := w.delivered + pending)
  }

  lemma {:induction false} PollsHandOutPending(after: EventSeq, w: World)
    requires w.base <= |w.log| && w.pc.Idle? && !w.stream.terminal
    requires w.stream.pending != [] && OnlyLastTerminal(w.stream.pending)
    ensures Polls(after, w, |w.stream.pending|) == HandedOut(w)
    decreases |w.stream.pending|
  {
    var pending := w.stream.pending;
    var w' := PollStep(after, w);
    assert w' == Give(w, pending[0], pending[1..]);
    if |pending| == 1 {
      assert Polls(after, w', 0) == w';
    } else {
      PollsHandOutPending(after, w');
      assert w'.delivered + w'.stream.pending == w.delivered + pending;
    }
  }

  /** A read that finds something, followed by as many calls as it found events. */
  lemma ReadThenHandOut(after: EventSeq, w: World, merged: seq<CoreEvent>)
    requires w.base <= |w.log| && w.pc.CatchingUp? && !w.stream.terminal
    requires merged == Merged(w.stream.lastSeq, HistoryPage(w, w.stream.lastSeq), w.pc.trailing)
    requires merged != [] && OnlyLastTerminal(merged)
    ensures Polls(after, w, 1 + |merged|) == HandedOut(w.(pc := Idle, stream := w.stream.(pending := merged)))
  {
    var w1 := PollStep(after, w);
    assert w1 == w.(pc := Idle, stream := w.stream.(pending := merged));
    PollsHandOutPending(after, w1);
    assert Polls(after, w, 1 + |merged|) == Polls(after, w1, |merged|);
  }

  lemma ReadThenDeliver(after: EventSeq, w: World, merged: seq<CoreEvent>)
    requires w.base <= |w.log| && w.pc.CatchingUp? && !w.stream.terminal
    requires merged == Merged(w.stream.lastSeq, HistoryPage(w, w.stream.lastSeq), w.pc.trailing)
    requires merged != [] && OnlyLastTerminal(merged)
    ensures var w' := Polls(after, w, 1 + |merged|);
            && w'.log == w.log && w'.delivered == w.delivered + merged
            && w'.stream.lastSeq == merged[|merged| - 1].seqNo
  {
    ReadThenHandOut(after, w, merged);
  }

  // ---------------------------------------------------------------- beyond the bound

  lemma MergeFacts(log: seq<CoreEvent>, lo: nat, event: CoreEvent)
    requires Store.Numbered(log, 0) && InLog(event, log) && lo < event.seqNo && OnlyLastTerminal(log)
    ensures var merged := Merged(lo, log[lo..PageEnd(log, lo)], Some(event));
            && merged != [] && OnlyLastTerminal(merged)
            && (event.seqNo <= lo + PAGE + 1 ==>
                  Continues(log, lo, merged) && merged[|merged| - 1].seqNo == lo + |merged|)
            && (event.seqNo > lo + PAGE + 1 ==> merged[|merged| - 1].seqNo > lo + |merged|)
  {
    var hi := PageEnd(log, lo);
    MergeTrailing(log, lo, event);
    MergeIsContiguousWithin501(log, lo, event);
    if event.seqNo > hi {
      EventBehind(log, lo, hi, event);
    } else {
      LastOfPage(log, lo, hi);
    }
  }

  lemma LastOfPage(log: seq<CoreEvent>, lo: nat, hi: nat)
    requires Store.Numbered(log, 0) && lo < hi <= |log| && OnlyLastTerminal(log)
    ensures var page := log[lo..hi]; page != [] && OnlyLastTerminal(page) && page[|page| - 1].seqNo == hi
  {
  }

  lemma EventBehind(log: seq<CoreEvent>, lo: nat, hi: nat, event: CoreEvent)
    requires lo <= hi < |log| && OnlyLastTerminal(log)
    ensures var merged := log[lo..hi] + [event];
            merged != [] && OnlyLastTerminal(merged) && merged[|merged| - 1] == event && |merged| == hi - lo + 1
  {
  }

  lemma ExactExtends(after: EventSeq, w: World, hi: nat)
    requires Exact(after, w) && w.stream.lastSeq <= hi <= |w.log|
    ensures after <= hi && w.delivered + w.log[w.stream.lastSeq..hi] == w.log[after..hi]
  {
    assert after <= w.stream.lastSeq;
    assert w.delivered == w.log[after..w.stream.lastSeq];
    assert w.log[after..hi] == w.log[after..w.stream.lastSeq] + w.log[w.stream.lastSeq..hi];
  }

  /**
   The converse of exactness: after the read a gap event asked for and the calls that
   hand out what it found, the stream is exact if and only if the event was within reach.
   */
  lemma GapBeyondTheBoundIsLost(after: EventSeq, w: World)
    requires Good(after, w) && w.base <= w.stream.lastSeq && w.base <= |w.log|
    requires w.pc.CatchingUp? && w.pc.trailing.Some? && OnlyLastTerminal(w.log)
    ensures var merged := Merged(w.stream.lastSeq, HistoryPage(w, w.stream.lastSeq), w.pc.trailing);
            Exact(after, Polls(after, w, 1 + |merged|)) <==> Near(w)
  {
    var lo := w.stream.lastSeq;
    var merged := Merged(lo, HistoryPage(w, lo), w.pc.trailing);
    PageIsSlice(w, lo);
    MergeFacts(w.log, lo, w.pc.trailing.value);
    ReadThenDeliver(after, w, merged);
    ExactAfterHandOut(after, w, Polls(after, w, 1 + |merged|), merged, Near(w));
  }

  lemma ExactAfterHandOut(after: EventSeq, w: World, w': World, merged: seq<CoreEvent>, near: bool)
    requires Exact(after, w) && w.stream.lastSeq <= |w.log| && merged != []
    requires w'.log == w.log && w'.delivered == w.delivered + merged
    requires w'.stream.lastSeq == merged[|merged| - 1].seqNo
    requires near ==> Continues(w.log, w.stream.lastSeq, merged) && w'.stream.lastSeq == w.stream.lastSeq + |merged|
    requires !near ==> w'.stream.lastSeq > w.stream.lastSeq + |merged|
    ensures Exact(after, w') <==> near
  {
    var lo := w.stream.lastSeq;
    ExactExtends(after, w, lo);
    assert w.log[lo..lo] == [];
    assert |w.delivered| == lo - after;
    if near {
      ExactExtends(after, w, lo + |merged|);
    }
  }
}
