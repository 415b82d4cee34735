/**
 What the stream keeps in every run, tame or not and whatever retention removes:
 delivered numbers rise, lie above the starting point, and each delivered event is the
 log's event of that number. So a number once passed over is never delivered.
 */
module StreamOrder {
  import opened OrderedMaps
  import opened TaskModel
  import opened ReliableStream
  import opened StreamWorld
  import Store = MemoryStore

  /** Events of the log with rising numbers above `lo`. */
  ghost predicate Listed(lo: nat, events: seq<CoreEvent>, log: seq<CoreEvent>) {
    && (forall i | 0 <= i < |events| :: lo < events[i].seqNo && InLog(events[i], log))
    && (forall i, j | 0 <= i < j < |events| :: events[i].seqNo < events[j].seqNo)
  }

  ghost predicate UpTo(hi: nat, events: seq<CoreEvent>) {
    forall i | 0 <= i < |events| :: events[i].seqNo <= hi
  }

  ghost predicate PcListed(after: EventSeq, w: World) {
    match w.pc
    case Start => w.delivered == [] && w.stream == Stream(after, [], false)
    case Opening(history) => w.delivered == [] && w.stream == Stream(after, [], false) && Listed(after, history, w.log)
    case Idle => true
    case CatchingUp(trailing, _) =>
      w.stream.pending == [] && (trailing.Some? ==> InLog(trailing.value, w.log))
  }

  ghost predicate Ordered(after: EventSeq, w: World) {
    && Store.Numbered(w.log, 0)
    && after <= w.stream.lastSeq
    && Listed(after, w.delivered, w.log) && UpTo(w.stream.lastSeq, w.delivered)
    && Listed(w.stream.lastSeq, w.stream.pending, w.log)
    && Queued(w)
    && PcListed(after, w)
  }

  // ---------------------------------------------------------------- pages and merges

  lemma TailOfLogIsListed(log: seq<CoreEvent>, lo: nat, from: nat)
    requires Store.Numbered(log, 0) && lo <= from <= |log|
    ensures Listed(lo, log[from..], log)
  {
  }

  lemma TakenIsListed(lo: nat, events: seq<CoreEvent>, limit: nat, log: seq<CoreEvent>)
    requires Listed(lo, events, log)
    ensures Listed(lo, Store.Take(events, limit), log)
  {
  }

  lemma ReadIsSlice(log: seq<CoreEvent>, base: nat, lo: nat)
    requires Store.Numbered(log, 0) && base <= |log|
    ensures Store.SeqAfter(log[base..], lo) ==
            var from := if base < lo then lo else base;
            if from <= |log| then log[from..] else []
  {
    Store.SeqAfterIsSlice(log[base..], base, lo);
    if base <= lo <= |log| {
      assert log[base..][lo - base..] == log[lo..];
    }
  }

  lemma PageIsListed(w: World, lo: nat)
    requires Store.Numbered(w.log, 0) && w.base <= |w.log|
    ensures Listed(lo, HistoryPage(w, lo), w.log)
  {
    ReadIsSlice(w.log, w.base, lo);
    var from := if w.base < lo then lo else w.base;
    if from <= |w.log| {
      TailOfLogIsListed(w.log, lo, from);
    }
    TakenIsListed(lo, Store.SeqAfter(w.log[w.base..], lo), PAGE, w.log);
  }

  /** The values of a map are the log's events under their numbers, all above `lo`. */
  ghost predicate Keyed(m: map<EventSeq, CoreEvent>, lo: nat, log: seq<CoreEvent>) {
    forall k | k in m :: lo < k && m[k].seqNo == k && InLog(m[k], log)
  }

  lemma {:induction false} CollectedIsKeyed(lo: nat, page: seq<CoreEvent>, log: seq<CoreEvent>)
    requires forall i | 0 <= i < |page| :: InLog(page[i], log)
    ensures Keyed(Collected(lo, page), lo, log)
  {
    if page != [] {
      CollectedIsKeyed(lo, page[..|page| - 1], log);
    }
  }

  lemma {:induction false} AscendingIsListed(m: map<EventSeq, CoreEvent>, keys: set<EventSeq>, lo: nat,
                                             log: seq<CoreEvent>)
    requires Keyed(m, 0, log) && keys <= m.Keys && forall k | k in keys :: lo < k
    ensures Listed(lo, Ascending(m, keys), log)
    decreases |keys|
  {
    if keys != {} {
      var k := Least(keys);
      AscendingIsListed(m, keys - {k}, k, log);
      ConsIsListed(lo, m[k], Ascending(m, keys - {k}), log);
    }
  }

  lemma ConsIsListed(lo: nat, event: CoreEvent, rest: seq<CoreEvent>, log: seq<CoreEvent>)
    requires lo < event.seqNo && InLog(event, log) && Listed(event.seqNo, rest, log)
    ensures Listed(lo, [event] + rest, log)
  {
  }

  lemma MergedIsListed(lo: nat, page: seq<CoreEvent>, trailing: Option<CoreEvent>, log: seq<CoreEvent>)
    requires forall i | 0 <= i < |page| :: InLog(page[i], log)
    requires trailing.Some? ==> InLog(trailing.value, log)
    ensures Listed(lo, Merged(lo, page, trailing), log)
  {
    CollectedIsKeyed(lo, page, log);
    var m := WithTrailing(Collected(lo, page), lo, trailing);
    AscendingIsListed(m, m.Keys, lo, log);
  }

  // ---------------------------------------------------------------- steps

  lemma GrownIsListed(lo: nat, events: seq<CoreEvent>, log: seq<CoreEvent>, log': seq<CoreEvent>)
    requires Listed(lo, events, log) && log <= log'
    ensures Listed(lo, events, log')
  {
  }

  lemma GiveIsOrdered(after: EventSeq, w: World, event: CoreEvent, rest: seq<CoreEvent>)
    requires Ordered(after, w) && w.pc.Idle?
    requires InLog(event, w.log) && w.stream.lastSeq < event.seqNo && Listed(event.seqNo, rest, w.log)
    ensures Ordered(after, Give(w, event, rest))
  {
  }

  lemma TailIsListed(lo: nat, events: seq<CoreEvent>, log: seq<CoreEvent>)
    requires Listed(lo, events, log) && events != []
    ensures Listed(events[0].seqNo, events[1..], log)
  {
  }

  lemma BeyondIsListed(history: seq<CoreEvent>, after: EventSeq, log: seq<CoreEvent>)
    requires Listed(after, history, log)
    ensures Listed(after, Beyond(history, after), log)
  {
    AllBeyond(history, after);
  }

  lemma {:induction false} AllBeyond(history: seq<CoreEvent>, after: EventSeq)
    requires forall i | 0 <= i < |history| :: after < history[i].seqNo
    ensures Beyond(history, after) == history
  {
    if history != [] {
      AllBeyond(history[1..], after);
    }
  }

  lemma HearIsOrdered(after: EventSeq, w: World, recv: Recv)
    requires Ordered(after, w) && w.pc.Idle? && w.stream.pending == []
    requires recv.Got? ==> InLog(recv.event, w.log)
    ensures Ordered(after, Hear(w, recv))
  {
    if recv.Got? && recv.event.seqNo == w.stream.lastSeq + 1 {
      GiveIsOrdered(after, w, recv.event, w.stream.pending);
    }
  }

  lemma PollIsOrdered(after: EventSeq, w: World)
    requires Ordered(after, w) && w.base <= |w.log|
    ensures Ordered(after, PollStep(after, w))
  {
    match w.pc
    case Start => PageIsListed(w, after);
    case Opening(history) => BeyondIsListed(history, after, w.log);
    case CatchingUp(trailing, _) =>
      PageIsListed(w, w.stream.lastSeq);
      MergedIsListed(w.stream.lastSeq, HistoryPage(w, w.stream.lastSeq), trailing, w.log);
    case Idle =>
      if !w.stream.terminal {
        if w.stream.pending != [] {
          TailIsListed(w.stream.lastSeq, w.stream.pending, w.log);
          GiveIsOrdered(after, w, w.stream.pending[0], w.stream.pending[1..]);
        } else if w.lagged {
          HearIsOrdered(after, w.(lagged := false), Lagged);
        } else if w.queue != [] {
          HearIsOrdered(after, w.(queue := w.queue[1..]), Got(w.queue[0]));
        } else if w.closed {
          HearIsOrdered(after, w, Closed);
        }
      }
  }

  lemma CommitIsOrdered(task: TaskId, after: EventSeq, w: World, a: Action)
    requires Ordered(after, w) && w.base <= |w.log| && a.Commit?
    ensures Ordered(after, Step(task, after, w, a))
  {
    var log' := Step(task, after, w, a).log;
    GrownIsListed(after, w.delivered, w.log, log');
    GrownIsListed(w.stream.lastSeq, w.stream.pending, w.log, log');
    if w.pc.Opening? {
      GrownIsListed(after, w.pc.history, w.log, log');
    }
  }

  lemma StepIsOrdered(task: TaskId, after: EventSeq, w: World, a: Action)
    requires Ordered(after, w) && w.base <= |w.log|
    ensures Ordered(after, Step(task, after, w, a))
  {
    match a
    case Commit(_, _) => CommitIsOrdered(task, after, w, a);
    case Publish(_) =>
    case Close =>
    case Trim(_) =>
    case Poll => PollIsOrdered(after, w);
    case ReadFails =>
  }

  /** For every schedule: delivered numbers rise above `after`, and each event is the log's of its number. */
  lemma {:induction false} EveryRunIsOrdered(task: TaskId, after: EventSeq, schedule: seq<Action>)
    ensures Ordered(after, Run(task, after, schedule))
  {
    if schedule != [] {
      var n := |schedule| - 1;
      EveryRunIsOrdered(task, after, schedule[..n]);
      StepIsOrdered(task, after, Run(task, after, schedule[..n]), schedule[n]);
    }
  }

  // ---------------------------------------------------------------- nothing is delivered late

  /** Later deliveries come behind the earlier ones and carry higher numbers. */
  ghost predicate Advances(w: World, w': World) {
    && w.stream.lastSeq <= w'.stream.lastSeq
    && w.delivered <= w'.delivered
    && forall i | |w.delivered| <= i < |w'.delivered| :: w.stream.lastSeq < w'.delivered[i].seqNo
  }

  lemma PollAdvances(after: EventSeq, w: World)
    requires Ordered(after, w) && w.base <= |w.log|
    ensures Advances(w, PollStep(after, w))
  {
    match w.pc
    case Start =>
    case Opening(_) =>
    case CatchingUp(_, _) =>
    case Idle =>
      if !w.stream.terminal && w.stream.pending == [] && !w.lagged && w.queue != [] {
        HearAdvances(w.(queue := w.queue[1..]), Got(w.queue[0]));
      }
  }

  lemma HearAdvances(w: World, recv: Recv)
    ensures Advances(w, Hear(w, recv))
  {
  }

  lemma StepAdvances(task: TaskId, after: EventSeq, w: World, a: Action)
    requires Ordered(after, w) && w.base <= |w.log|
    ensures Advances(w, Step(task, after, w, a))
  {
    if a.Poll? {
      PollAdvances(after, w);
    }
  }

  lemma AdvancesOn(w: World, mid: World, w': World)
    requires Advances(w, mid) && Advances(mid, w')
    ensures Advances(w, w')
  {
    forall i | |w.delivered| <= i < |w'.delivered| ensures w.stream.lastSeq < w'.delivered[i].seqNo {
      if i < |mid.delivered| {
        assert w'.delivered[i] == mid.delivered[i];
      }
    }
  }

  lemma {:induction false} RunsAdvance(task: TaskId, after: EventSeq, schedule: seq<Action>, more: seq<Action>)
    ensures Advances(Run(task, after, schedule), Run(task, after, schedule + more))
    decreases |more|
  {
    if more == [] {
      assert schedule + more == schedule;
    } else {
      var n := |more| - 1;
      RunsAdvance(task, after, schedule, more[..n]);
      var mid := Run(task, after, schedule + more[..n]);
      EveryRunIsOrdered(task, after, schedule + more[..n]);
      assert (schedule + more)[..|schedule + more| - 1] == schedule + more[..n];
      StepAdvances(task, after, mid, more[n]);
      AdvancesOn(Run(task, after, schedule), mid, Run(task, after, schedule + more));
    }
  }

  ghost predicate HasDelivered(w: World, number: nat) {
    exists i | 0 <= i < |w.delivered| :: w.delivered[i].seqNo == number
  }

  lemma AdvancePasses(w: World, w': World, number: nat)
    requires Advances(w, w') && number <= w.stream.lastSeq && !HasDelivered(w, number)
    ensures !HasDelivered(w', number)
  {
    forall i | 0 <= i < |w'.delivered| ensures w'.delivered[i].seqNo != number {
      if i < |w.delivered| {
        assert w'.delivered[i] == w.delivered[i];
      }
    }
  }

  /** A number the stream has passed without delivering it is not delivered by any continuation. */
  lemma PassedOverIsLost(task: TaskId, after: EventSeq, schedule: seq<Action>, more: seq<Action>, number: nat)
    requires number <= Run(task, after, schedule).stream.lastSeq && !HasDelivered(Run(task, after, schedule), number)
    ensures !HasDelivered(Run(task, after, schedule + more), number)
  {
    RunsAdvance(task, after, schedule, more);
    AdvancePasses(Run(task, after, schedule), Run(task, after, schedule + more), number);
  }

  /**
   A condition on the log alone: if it never gets more than 501 events past the starting
   point and retention never passes it, every schedule is exact.
   */
  lemma ShortLogsAreTame(task: TaskId, after: EventSeq, schedule: seq<Action>)
    requires |Run(task, after, schedule).log| <= after + PAGE + 1
    requires Run(task, after, schedule).base <= after
    ensures Tame(task, after, schedule) && Good(after, Run(task, after, schedule))
  {
    forall k | 0 <= k < |schedule| && schedule[k].Poll?
      ensures KeepsUp(Run(task, after, schedule[..k])) && Covered(after, Run(task, after, schedule[..k]))
    {
      RunGrows(task, after, schedule, k);
      EveryRunIsOrdered(task, after, schedule[..k]);
    }
    KeepingUpIsTame(task, after, schedule);
  }
}
