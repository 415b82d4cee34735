/**
 The steps `StreamWorld` interleaves are calls of `next`: from any point at which a call
 may start, whatever other actions come in between, the steps up to its reply do to the
 stream what the object's `Next` does when the channel answers, and the store returns
 pages, as they did along the way.
 */
module StreamCalls {
  import opened TaskModel
  import opened ReliableStream
  import opened StreamWorld

  /** What the channel answers when `next` waits for it, if anything. */
  function Heard(w: World): Option<Recv> {
    if w.lagged then Some(Lagged)
    else if w.queue != [] then Some(Got(w.queue[0]))
    else if w.closed then Some(Closed)
    else None
  }

  /** The answer that made `next` reread the log. */
  function Cause(trailing: Option<CoreEvent>, ended: bool): Recv {
    if trailing.Some? then Got(trailing.value) else if ended then Closed else Lagged
  }

  /** A call may be under way: idle, or rereading because of an answer it heard. */
  ghost predicate InCall(w: World) {
    && w.base <= |w.log|
    && (w.pc.Idle? ||
        (&& w.pc.CatchingUp? && !w.stream.terminal && w.stream.pending == []
         && React(w.stream.lastSeq, Cause(w.pc.trailing, w.pc.ended)) == Reread(w.pc.trailing, w.pc.ended)))
  }

  /** The turn one step completes, if any: an answer, with the page read if it asked for one and the read succeeded. */
  ghost function Completed(w: World, a: Action): seq<Turn>
    requires w.base <= |w.log|
  {
    if w.stream.terminal || w.stream.pending != [] || !(a.Poll? || a.ReadFails?) then []
    else if w.pc.CatchingUp? then
      [Turn(Cause(w.pc.trailing, w.pc.ended), if a.Poll? then Some(HistoryPage(w, w.stream.lastSeq)) else None)]
    else if a.Poll? && w.pc.Idle? && Heard(w).Some? && !React(w.stream.lastSeq, Heard(w).value).Reread? then
      [Turn(Heard(w).value, None)]
    else []
  }

  /** The reply one step gives, if it gives one. */
  ghost function Given(w: World, a: Action, w': World): Option<Reply> {
    if a.ReadFails? && w.pc.CatchingUp? then Some(ReadError)
    else if !a.Poll? then None
    else if |w'.delivered| > |w.delivered| then Some(Event(w'.delivered[|w'.delivered| - 1]))
    else if w'.stream.terminal then Some(Ended)
    else None
  }

  /** One step: either it replies as `next` does, or `next` goes on from where it leaves the stream. */
  ghost predicate Simulates(s: Stream, turns: seq<Turn>, s': Stream, reply: Option<Reply>, more: seq<Turn>) {
    if reply.Some? then NextOn(s, turns) == (s', reply.value)
    else NextOn(s, turns + more) == NextOn(s', more)
  }

  lemma QuietAction(task: TaskId, after: EventSeq, w: World, a: Action)
    requires InCall(w) && !a.Poll? && !a.ReadFails?
    ensures var w' := Step(task, after, w, a);
            InCall(w') && w'.stream == w.stream && w'.delivered == w.delivered
  {
  }

  lemma RereadStep(after: EventSeq, w: World, more: seq<Turn>)
    requires InCall(w) && w.pc.CatchingUp?
    ensures var w' := PollStep(after, w);
            && InCall(w')
            && Simulates(w.stream, Completed(w, Poll), w'.stream, Given(w, Poll, w'), more)
  {
    var turns := Completed(w, Poll);
    assert (turns + more)[0] == turns[0] && (turns + more)[1..] == more;
  }

  lemma HearStep(after: EventSeq, w: World, recv: Recv, more: seq<Turn>)
    requires InCall(w) && w.pc.Idle? && !w.stream.terminal && w.stream.pending == []
    requires Heard(w) == Some(recv)
    ensures var w' := PollStep(after, w);
            && InCall(w')
            && Simulates(w.stream, Completed(w, Poll), w'.stream, Given(w, Poll, w'), more)
  {
    match React(w.stream.lastSeq, recv)
    case Drop => assert ([Turn(recv, None)] + more)[1..] == more;
    case DeliverNow(event) =>
    case Reread(trailing, ended) => assert [] + more == more;
  }

  lemma PollIsPartOfNext(after: EventSeq, w: World, more: seq<Turn>)
    requires InCall(w)
    ensures var w' := PollStep(after, w);
            && InCall(w')
            && Simulates(w.stream, Completed(w, Poll), w'.stream, Given(w, Poll, w'), more)
  {
    if w.pc.CatchingUp? {
      RereadStep(after, w, more);
    } else if !w.stream.terminal && w.stream.pending == [] && Heard(w).Some? {
      HearStep(after, w, Heard(w).value, more);
    } else {
      assert [] + more == more;
    }
  }

  lemma FailedReadEndsNext(w: World)
    requires InCall(w) && w.pc.CatchingUp?
    ensures InCall(FailRead(w)) && NextOn(w.stream, Completed(w, ReadFails)) == (FailRead(w).stream, ReadError)
  {
  }

  lemma StepIsPartOfNext(task: TaskId, after: EventSeq, w: World, a: Action, more: seq<Turn>)
    requires InCall(w)
    ensures var w' := Step(task, after, w, a);
            && InCall(w')
            && Simulates(w.stream, Completed(w, a), w'.stream, Given(w, a, w'), more)
  {
    if a.Poll? {
      PollIsPartOfNext(after, w, more);
    } else if a.ReadFails? {
      if w.pc.CatchingUp? {
        FailedReadEndsNext(w);
      }
      assert [] + more == more;
    } else {
      QuietAction(task, after, w, a);
      assert [] + more == more;
    }
  }

  ghost function After(task: TaskId, after: EventSeq, w: World, actions: seq<Action>): (w': World)
    requires w.base <= |w.log|
    ensures w'.base <= |w'.log|
    decreases |actions|
  {
    if actions == [] then w else After(task, after, Step(task, after, w, actions[0]), actions[1..])
  }

  ghost function Turns(task: TaskId, after: EventSeq, w: World, actions: seq<Action>): seq<Turn>
    requires w.base <= |w.log|
    decreases |actions|
  {
    if actions == [] then []
    else Completed(w, actions[0]) + Turns(task, after, Step(task, after, w, actions[0]), actions[1..])
  }

  /** The reply the last of the actions gives, none having been given before. */
  ghost function FirstReply(task: TaskId, after: EventSeq, w: World, actions: seq<Action>): Option<Reply>
    requires w.base <= |w.log|
    decreases |actions|
  {
    if actions == [] then None
    else
      var w' := Step(task, after, w, actions[0]);
      var given := Given(w, actions[0], w');
      if |actions| == 1 then given
      else if given.Some? then None
      else FirstReply(task, after, w', actions[1..])
  }

  /** Every call of `next` that replies in the interleaved system replies, and leaves the stream, as the object's does. */
  lemma {:induction false} StepsAreNext(task: TaskId, after: EventSeq, w: World, actions: seq<Action>)
    requires InCall(w) && FirstReply(task, after, w, actions).Some?
    ensures NextOn(w.stream, Turns(task, after, w, actions)) ==
            (After(task, after, w, actions).stream, FirstReply(task, after, w, actions).value)
    decreases |actions|
  {
    var w' := Step(task, after, w, actions[0]);
    var rest := Turns(task, after, w', actions[1..]);
    StepIsPartOfNext(task, after, w, actions[0], rest);
    if |actions| == 1 {
      assert actions[1..] == [];
      assert Completed(w, actions[0]) + [] == Completed(w, actions[0]);
    } else {
      StepsAreNext(task, after, w', actions[1..]);
    }
  }
}
