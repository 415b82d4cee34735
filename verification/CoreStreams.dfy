/**
 Streams of tasks of the core: the log a stream reads is the log some run of the core has
 written, so a terminal event is its last, and what the stream promises about logs the
 lifecycle allows holds without further condition.
 */
module CoreStreams {
  import opened TaskModel
  import opened Lifecycle
  import opened ReliableStream
  import opened StreamWorld
  import opened StreamDrain
  import Core
  import CoreTheorems
  import Store = MemoryStore

  ghost function Written(c: Core.Config, schedule: seq<Core.Action>, t: TaskId): seq<CoreEvent> {
    var store := Core.Run(c, schedule).ledger.store;
    if t in store.tasks && t in store.events then store.events[t] else []
  }

  lemma WrittenIsLegal(c: Core.Config, schedule: seq<Core.Action>, t: TaskId)
    ensures Legal(Kinds(Written(c, schedule, t)))
  {
    if t in Core.Run(c, schedule).ledger.store.tasks {
      CoreTheorems.EveryRunRefinesTheAtomicSystem(c, schedule, t);
    }
  }

  lemma PrefixIsLegal(kinds: seq<EventKind>, n: nat)
    requires Legal(kinds) && n <= |kinds|
    ensures Legal(kinds[..n])
  {
    forall i | 0 <= i < n ensures Enabled(StateOf(kinds[..n][..i]), kinds[..n][i]) {
      assert kinds[..n][..i] == kinds[..i];
    }
  }

  lemma LegalEndsOnce(log: seq<CoreEvent>)
    requires Legal(Kinds(log))
    ensures OnlyLastTerminal(log)
  {
    forall i | 0 <= i < |log| - 1 ensures !log[i].kind.Terminal() {
      if log[i].kind.Terminal() {
        TerminalEventIsLast(Kinds(log), i);
      }
    }
  }

  /** Any part of a log of the core that a stream may see is one the lifecycle allows, and ends at most once. */
  lemma SeenLogsEndOnce(c: Core.Config, schedule: seq<Core.Action>, t: TaskId, log: seq<CoreEvent>)
    requires log <= Written(c, schedule, t)
    ensures Legal(Kinds(log)) && OnlyLastTerminal(log)
  {
    WrittenIsLegal(c, schedule, t);
    assert Kinds(log) == Kinds(Written(c, schedule, t))[..|log|];
    PrefixIsLegal(Kinds(Written(c, schedule, t)), |log|);
    LegalEndsOnce(log);
  }

  lemma {:induction false} CommitsRebuild(t: TaskId, after: EventSeq, log: seq<CoreEvent>, n: nat)
    requires n <= |log| && Store.Numbered(log, 0) && forall i | 0 <= i < |log| :: log[i].taskId == t
    ensures Run(t, after, Commits(log, n)).log == log[..n]
  {
    if n > 0 {
      CommitsRebuild(t, after, log, n - 1);
      var before := Commits(log, n - 1);
      assert Commits(log, n)[..|before|] == before;
    }
  }

  function Commits(log: seq<CoreEvent>, n: nat): seq<Action>
    requires n <= |log|
  {
    if n == 0 then [] else Commits(log, n - 1) + [Commit(log[n - 1].at, log[n - 1].kind)]
  }

  /** Every log of the core is the log of a stream's run. */
  lemma EveryWrittenLogCanBeSeen(c: Core.Config, schedule: seq<Core.Action>, t: TaskId, after: EventSeq)
    ensures var log := Written(c, schedule, t); Run(t, after, Commits(log, |log|)).log == log
  {
    var log := Written(c, schedule, t);
    if t in Core.Run(c, schedule).ledger.store.tasks {
      CoreTheorems.EveryRunIsEventSourced(c, schedule, t);
      CommitsRebuild(t, after, log, |log|);
    }
    assert log[..|log|] == log;
  }

  lemma EndIsWhole(log: seq<CoreEvent>, written: seq<CoreEvent>)
    requires log <= written && Legal(Kinds(written)) && log != [] && log[|log| - 1].kind.Terminal()
    ensures log == written
  {
    TerminalEventIsLast(Kinds(written), |log| - 1);
  }

  lemma EndStays(c: Core.Config, schedule: seq<Core.Action>, more: seq<Core.Action>, t: TaskId, log: seq<CoreEvent>)
    requires log == Written(c, schedule, t) && log != [] && log[|log| - 1].kind.Terminal()
    ensures Written(c, schedule + more, t) == log
  {
    CoreTheorems.EveryRunIsEventSourced(c, schedule, t);
    CoreTheorems.TasksOnlyMoveForward(c, schedule, more, t);
    assert Kinds(log)[|log| - 1] == log[|log| - 1].kind;
  }

  /**
   A stream that delivers a terminal event has delivered everything: whatever part of the
   task's log it saw, that was all of it beyond `after`, and no continuation of the core
   adds to it.
   */
  lemma TerminalMeansAllThereIs(c: Core.Config, schedule: seq<Core.Action>, more: seq<Core.Action>, t: TaskId,
                                after: EventSeq, actions: seq<Action>)
    requires Tame(t, after, actions) && Run(t, after, actions).log <= Written(c, schedule, t)
    requires var w := Run(t, after, actions); w.delivered != [] && w.delivered[|w.delivered| - 1].kind.Terminal()
    ensures var log := Written(c, schedule + more, t);
            after <= |log| && Run(t, after, actions).delivered == log[after..]
  {
    var w := Run(t, after, actions);
    SeenLogsEndOnce(c, schedule, t, w.log);
    TerminalMeansComplete(t, after, actions);
    assert w.log[|w.log| - 1] == w.delivered[|w.delivered| - 1];
    WrittenIsLegal(c, schedule, t);
    EndIsWhole(w.log, Written(c, schedule, t));
    EndStays(c, schedule, more, t, w.log);
  }

  /** A stream of a task of the core, its channel closed and not ended before, is drained by calls alone. */
  lemma CoreStreamsDrain(c: Core.Config, schedule: seq<Core.Action>, t: TaskId, after: EventSeq, actions: seq<Action>)
    returns (n: nat)
    requires Tame(t, after, actions) && Run(t, after, actions).log <= Written(c, schedule, t)
    requires var w := Run(t, after, actions);
             && w.closed && !w.stream.terminal && (w.pc.Idle? || w.pc.CatchingUp?)
             && w.base <= w.stream.lastSeq && NearThroughout(after, w)
    ensures var w := Run(t, after, actions);
            Polls(after, w, n).log == w.log && Drained(after, Polls(after, w, n))
  {
    SeenLogsEndOnce(c, schedule, t, Run(t, after, actions).log);
    EveryTameRunIsGood(t, after, actions);
    n := DrainsToTheEnd(after, Run(t, after, actions));
  }
}
